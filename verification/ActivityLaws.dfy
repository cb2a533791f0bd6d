/** What holds over whole streams of activity events, and over the journal that keeps one stream per correlation. */
module ActivityLaws {
  import opened Common
  import opened ActivityEvents
  import opened ActivityStream

  /** The record after a stream of events, starting from `previous`. */
  function Fold(events: seq<Event>, previous: Option<Record>): Option<Record> {
    if events == [] then previous
    else
      var n := |events| - 1;
      var before := Fold(events[..n], previous);
      var next := Project(events[n], before);
      if next.Some? then next else before
  }

  /** A shown event that restarts a finished activity. */
  predicate Restarts(e: Event, before: Option<Record>) { Family(e).Some? && NewAttempt(e, before) }

  /** Identity and start time change only when an explicit start follows a terminal record, and then both do. */
  lemma {:induction false} AttemptsAreKept(events: seq<Event>, first: Record)
    requires forall i :: 0 <= i < |events| ==> !Restarts(events[i], Fold(events[..i], Some(first)))
    ensures var last := Fold(events, Some(first));
            last.Some? && last.value.id == first.id && last.value.startedAt == first.startedAt
  {
    if events != [] {
      var n := |events| - 1;
      assert !Restarts(events[n], Fold(events[..n], Some(first)));
      forall i | 0 <= i < n ensures !Restarts(events[..n][i], Fold(events[..n][..i], Some(first))) {
        assert events[..n][..i] == events[..i];
        assert !Restarts(events[i], Fold(events[..i], Some(first)));
      }
      AttemptsAreKept(events[..n], first);
    }
  }

  lemma RestartsOpenAnAttempt(e: Event, before: Record)
    requires Restarts(e, Some(before))
    ensures var r := Projected(e, Family(e).value, Some(before));
            && r.id == Id(Get(e.fields, "run_id"), IdentityOf(e, Family(e).value), e.sequence) && r.startedAt == e.now
            && (Reported(e, Family(e).value).Running? && Family(e).value != "plan" ==> r.status.Running?)
  {
  }

  /** The public name of a task's record says that it started exactly as long as the task is not over. */
  lemma TaskNamesTellTheEnd(e: Event, before: Option<Record>)
    ensures var r := Projected(e, "run", before); r.naming.eventType == "agent.started" <==> !Terminal(r.status)
  {
    assert "agent.completed"[6] == 'c' && "agent.error"[6] == 'e' && "agent.interrupted"[6] == 'i'
           && "agent.started"[6] == 's';
  }

  predicate Timed(r: Record) { r.durationMs.None? <==> r.status.Running? || r.status.AwaitingApproval? }

  /** A duration is missing exactly while the activity runs or waits, and what is over keeps its duration until told
      otherwise. */
  lemma DurationsTellTheEnd(e: Event, family: string, before: Option<Record>)
    ensures Timed(Projected(e, family, before))
    ensures var r := Projected(e, family, before);
            before.Some? && Timed(before.value) && Terminal(before.value.status) && !NewAttempt(e, before)
              && Terminal(r.status)
            && Whole(Get(e.fields, "duration_ms")) == 0 && before.value.durationMs != Some(0)
            ==> r.durationMs == before.value.durationMs
  {
  }

  /** So no record of any stream is over without a duration, or open with one. */
  lemma {:induction false} FoldsAreTimed(events: seq<Event>)
    ensures Fold(events, None).Some? ==> Timed(Fold(events, None).value)
  {
    if events != [] {
      var n := |events| - 1;
      FoldsAreTimed(events[..n]);
      if Family(events[n]).Some? {
        DurationsTellTheEnd(events[n], Family(events[n]).value, Fold(events[..n], None));
      }
    }
  }

  /** A reported start does not reopen what is over. */
  function Sticky(before: Status, said: Status): Status {
    if Terminal(before) && said.Running? then before else said
  }

  function Evolve(said: seq<Status>, first: Status): Status {
    if said == [] then first else Sticky(Evolve(said[..|said| - 1], first), said[|said| - 1])
  }

  /** A stream of shown events other than plans, none of which starts a new attempt, and the statuses they report by
      themselves. */
  ghost predicate Says(events: seq<Event>, said: seq<Status>, first: Record) {
    && |said| == |events|
    && forall i :: 0 <= i < |events| ==> SaysBehind(events[i], said[i], Fold(events[..i], Some(first)))
  }

  ghost predicate SaysBehind(e: Event, said: Status, before: Option<Record>) {
    Family(e).Some? && Family(e).value != "plan" && Reported(e, Family(e).value) == said && !NewAttempt(e, before)
  }

  lemma OrdinaryStep(e: Event, before: Record)
    requires Family(e).Some? && Family(e).value != "plan" && !NewAttempt(e, Some(before))
    ensures Project(e, Some(before)).Some?
    ensures Project(e, Some(before)).value.status == Sticky(before.status, Reported(e, Family(e).value))
  {
  }

  lemma {:induction false} SaysPrefix(events: seq<Event>, said: seq<Status>, first: Record, n: nat)
    requires Says(events, said, first) && n <= |events|
    ensures Says(events[..n], said[..n], first)
  {
    forall i | 0 <= i < n ensures !NewAttempt(events[i], Fold(events[..n][..i], Some(first))) {
      assert events[..n][..i] == events[..i];
    }
  }

  /** Within one attempt the status of a record depends on the reported statuses alone. */
  lemma {:induction false} StatusesEvolve(events: seq<Event>, said: seq<Status>, first: Record)
    requires Says(events, said, first)
    ensures var last := Fold(events, Some(first)); last.Some? && last.value.status == Evolve(said, first.status)
  {
    if events != [] {
      var n := |events| - 1;
      SaysPrefix(events, said, first, n);
      StatusesEvolve(events[..n], said[..n], first);
      OrdinaryStep(events[n], Fold(events[..n], Some(first)).value);
    }
  }

  lemma {:induction false} RunningNeedsAnOpening(said: seq<Status>, first: Status)
    requires Terminal(first) && Evolve(said, first).Running?
    ensures exists i :: 0 <= i < |said| - 1 && Open(said[i]) && said[i + 1].Running?
  {
    var n := |said| - 1;
    if Evolve(said[..n], first).Running? {
      RunningNeedsAnOpening(said[..n], first);
      var i :| 0 <= i < n - 1 && Open(said[..n][i]) && said[..n][i + 1].Running?;
      assert Open(said[i]) && said[i + 1].Running?;
    } else {
      assert !Terminal(Evolve(said[..n], first));
      assert said[..n] != [] && Open(said[..n][n - 1]);
      assert Open(said[n - 1]) && said[n - 1 + 1].Running?;
    }
  }

  lemma OpeningThenRunning(said: seq<Status>, first: Status, i: nat)
    requires i < |said| - 1 && Open(said[i]) && said[i + 1].Running?
    ensures Evolve(said[..i + 2], first).Running?
  {
    assert said[..i + 2][..i + 1] == said[..i + 1];
  }

  lemma {:induction false} EvolveReopensIff(said: seq<Status>, shown: seq<Status>, first: Status)
    requires Terminal(first) && |shown| == |said| + 1
    requires forall n :: 0 <= n <= |said| ==> shown[n] == Evolve(said[..n], first)
    ensures (exists n :: 0 <= n < |shown| && shown[n].Running?)
       <==> (exists i :: 0 <= i < |said| - 1 && Open(said[i]) && said[i + 1].Running?)
  {
    if n :| 0 <= n < |shown| && shown[n].Running? {
      RunningNeedsAnOpening(said[..n], first);
      var i :| 0 <= i < n - 1 && Open(said[..n][i]) && said[..n][i + 1].Running?;
      assert Open(said[i]) && said[i + 1].Running?;
    }
    if i :| 0 <= i < |said| - 1 && Open(said[i]) && said[i + 1].Running? {
      OpeningThenRunning(said, first, i);
      assert shown[i + 2].Running?;
    }
  }

  /** The statuses a record shows before and after every event of a stream. */
  ghost predicate Shows(events: seq<Event>, first: Record, shown: seq<Status>) {
    && |shown| == |events| + 1
    && forall n :: 0 <= n <= |events| ==> var r := Fold(events[..n], Some(first)); r.Some? && r.value.status == shown[n]
  }

  lemma {:induction false} ShownEvolve(events: seq<Event>, said: seq<Status>, first: Record, shown: seq<Status>)
    requires Says(events, said, first) && Shows(events, first, shown)
    ensures forall n :: 0 <= n <= |said| ==> shown[n] == Evolve(said[..n], first.status)
  {
    forall n | 0 <= n <= |said| ensures shown[n] == Evolve(said[..n], first.status) {
      SaysPrefix(events, said, first, n);
      StatusesEvolve(events[..n], said[..n], first);
    }
  }

  /** As long as no start follows a terminal record, a finished activity shows as running again exactly when some event
      reports that it runs right after one reported it as queued or as waiting for approval. */
  lemma {:induction false} ReopensIff(events: seq<Event>, said: seq<Status>, first: Record, shown: seq<Status>)
    requires Says(events, said, first) && Terminal(first.status) && Shows(events, first, shown)
    ensures (exists n :: 0 <= n < |shown| && shown[n].Running?)
       <==> (exists i :: 0 <= i < |said| - 1 && Open(said[i]) && said[i + 1].Running?)
  {
    ShownEvolve(events, said, first, shown);
    EvolveReopensIff(said, shown, first.status);
  }

  function BuildEvent(status: Json): Event { Event("build", 1, 0, map["status" := status]) }

  const BUILD_STARTED := Event("build.started", 2, 0, map[])

  /** A queued report is enough to let a finished build run again without a start. */
  lemma {:induction false} AFinishedBuildRunsAgain(first: Record, events: seq<Event>)
    requires Terminal(first.status)
    requires |events| == 2 && events[0] == BuildEvent(Text("queued")) && events[1] == BuildEvent(Null)
    ensures !ExplicitStart(events[0]) && !ExplicitStart(events[1]) && RunsAgain(events, first)
  {
    BuildEventIsOrdinary(events[0]);
    BuildEventIsOrdinary(events[1]);
    QueuedThenRunning(events, first, "build");
  }

  /** Behind a queued report even an explicit start continues the finished attempt: same identity, running again. */
  lemma {:induction false} AQueuedBuildStartsAgain(first: Record, events: seq<Event>)
    requires Terminal(first.status)
    requires |events| == 2 && events[0] == BuildEvent(Text("queued")) && events[1] == BUILD_STARTED
    ensures ExplicitStart(events[1]) && RunsAgain(events, first)
  {
    BuildEventIsOrdinary(events[0]);
    BuildStartedIsShown(events[1]);
    QueuedThenRunning(events, first, "build");
  }

  /** The record runs again in the same attempt. */
  ghost predicate RunsAgain(events: seq<Event>, first: Record) {
    var last := Fold(events, Some(first));
    last.Some? && last.value.status.Running? && last.value.id == first.id && last.value.startedAt == first.startedAt
  }

  lemma {:induction false} QueuedThenRunning(events: seq<Event>, first: Record, family: string)
    requires |events| == 2 && Family(events[0]) == Some(family) == Family(events[1]) && family != "plan"
    requires !ExplicitStart(events[0]) && Reported(events[0], family).Queued? && Reported(events[1], family).Running?
    ensures RunsAgain(events, first)
  {
    QueuedIsOpen(events, first);
    QueuedIsSaid(events, first);
    var said := [Queued, Running];
    StatusesEvolve(events, said, first);
    assert said[..1] == [Queued];
    AttemptsAreKept(events, first);
  }

  lemma {:induction false} QueuedIsSaid(events: seq<Event>, first: Record)
    requires |events| == 2
    requires SaysBehind(events[0], Queued, Some(first))
    requires SaysBehind(events[1], Running, Fold(events[..1], Some(first)))
    ensures Says(events, [Queued, Running], first)
  {
    assert events[..0] == [];
  }

  lemma {:induction false} QueuedIsOpen(events: seq<Event>, first: Record)
    requires |events| == 2 && Family(events[0]).Some? && Family(events[0]).value != "plan" && !ExplicitStart(events[0])
    requires Reported(events[0], Family(events[0]).value).Queued?
    ensures Fold(events[..0], Some(first)) == Some(first)
    ensures forall e :: !NewAttempt(e, Fold(events[..1], Some(first)))
    ensures !NewAttempt(events[0], Some(first))
  {
    assert events[..1][..0] == [] && events[..1][0] == events[0];
    OrdinaryStep(events[0], first);
  }

  /** `kind` has another character than each suffix at this distance from the end, or is too short for it. */
  ghost predicate Differs(kind: string, suffixes: seq<string>, back: seq<nat>) {
    && |back| == |suffixes|
    && forall i :: 0 <= i < |back| ==>
         |suffixes[i]| > |kind|
         || (back[i] < |suffixes[i]| && kind[|kind| - 1 - back[i]] != suffixes[i][|suffixes[i]| - 1 - back[i]])
  }

  lemma {:induction false} NoSuffix(kind: string, suffixes: seq<string>, back: seq<nat>)
    requires Differs(kind, suffixes, back)
    ensures !EndsInAny(kind, suffixes)
  {
    if suffixes != [] {
      var s := suffixes[0];
      if |s| <= |kind| {
        assert kind[|kind| - |s|..][|s| - 1 - back[0]] == kind[|kind| - 1 - back[0]];
      }
      forall i | 0 <= i < |back| - 1
        ensures |suffixes[1..][i]| > |kind|
             || (back[1..][i] < |suffixes[1..][i]|
                 && kind[|kind| - 1 - back[1..][i]] != suffixes[1..][i][|suffixes[1..][i]| - 1 - back[1..][i]])
      {
        assert suffixes[1..][i] == suffixes[i + 1] && back[1..][i] == back[i + 1];
      }
      NoSuffix(kind, suffixes[1..], back[1..]);
    }
  }

  /** A kind that says nothing about how an activity ended. */
  ghost predicate Unending(kind: string) {
    && !EndsInAny(kind, WARNED) && !EndsInAny(kind, INTERRUPTED) && !EndsInAny(kind, FAILED)
    && !EndsInAny(kind, CANCELLED) && !EndsInAny(kind, COMPLETED)
  }

  lemma StartedIsUnending(kind: string)
    requires kind == "build.started"
    ensures Unending(kind)
  {
    StartedIsNotFailed(kind);
    StartedIsNotCompleted(kind);
  }

  lemma StartedIsNotFailed(kind: string)
    requires kind == "build.started"
    ensures !EndsInAny(kind, WARNED) && !EndsInAny(kind, INTERRUPTED) && !EndsInAny(kind, FAILED)
            && !EndsInAny(kind, CANCELLED)
  {
    NoSuffix(kind, WARNED, [0]);
    NoSuffix(kind, INTERRUPTED, [0, 2]);
    NoSuffix(kind, FAILED, [2, 2, 0]);
    NoSuffix(kind, CANCELLED, [2]);
  }

  lemma StartedIsNotCompleted(kind: string)
    requires kind == "build.started"
    ensures !EndsInAny(kind, COMPLETED)
  {
    NoSuffix(kind, COMPLETED, [3, 2, 3, 2, 3, 2, 3, 2]);
  }

  lemma BuildIsUnending(kind: string)
    requires kind == "build"
    ensures Unending(kind)
  {
    NoSuffix(kind, WARNED, [0]);
    NoSuffix(kind, INTERRUPTED, [0, 0]);
    NoSuffix(kind, FAILED, [0, 0, 0]);
    NoSuffix(kind, CANCELLED, [0]);
    NoSuffix(kind, COMPLETED, [0, 0, 0, 0, 0, 0, 0, 0]);
  }

  lemma UnendingStatus(e: Event)
    requires Unending(e.kind) && Get(e.fields, "result") == Null
    requires Get(e.fields, "status") == Null || Get(e.fields, "status") == Text("queued")
    ensures Reported(e, "build") == if Get(e.fields, "status") == Null then Running else Queued
  {
  }

  lemma StartsElsewhere(kind: string, prefix: string)
    requires kind != "" && prefix != "" && kind[0] != prefix[0]
    ensures !StartsWith(kind, prefix)
  {
    assert |prefix| <= |kind| ==> kind[..|prefix|][0] == kind[0];
  }

  lemma BuildFamily(e: Event)
    requires e.kind != "" && e.kind[0] == 'b' && PrefixFamily(e.kind, PREFIXES) == Some("build")
    ensures Family(e) == Some("build")
  {
    StartsElsewhere(e.kind, "agent.turn.");
    StartsElsewhere(e.kind, "tool.");
    StartsElsewhere(e.kind, "thinking.");
    StartsElsewhere(e.kind, "assistant.summary");
    StartsElsewhere(e.kind, "reasoning.summary");
    StartsElsewhere(e.kind, "context.");
    StartsElsewhere(e.kind, "subagent.");
    StartsElsewhere(e.kind, "plan.");
    StartsElsewhere(e.kind, "runtime.");
  }

  lemma BuildPrefix(kind: string)
    requires kind == "build" || kind == "build.started"
    ensures PrefixFamily(kind, PREFIXES) == Some("build")
  {
    assert |kind| > 5 ==> kind[..6] == "build." && kind[..13][6] == 's';
    assert PrefixFamily(kind, PREFIXES[4..]) == Some("build");
    assert PREFIXES[3..][1..] == PREFIXES[4..] && PREFIXES[2..][1..] == PREFIXES[3..];
    assert PREFIXES[1..][1..] == PREFIXES[2..];
    StartsElsewhere(kind, "project.repair.");
    StartsElsewhere(kind, "project.validation.");
    StartsElsewhere(kind, "generation.");
    assert PrefixFamily(kind, PREFIXES[2..]) == Some("build");
  }

  lemma BuildEventIsOrdinary(e: Event)
    requires e.kind == "build" && Get(e.fields, "result") == Null
    requires Get(e.fields, "status") == Null || Get(e.fields, "status") == Text("queued")
    ensures Family(e) == Some("build") && !ExplicitStart(e)
    ensures Reported(e, "build") == if Get(e.fields, "status") == Null then Running else Queued
  {
    BuildPrefix(e.kind);
    BuildFamily(e);
    BuildIsUnending(e.kind);
    UnendingStatus(e);
  }

  lemma BuildStartedIsShown(e: Event)
    requires e.kind == "build.started" && e.fields == map[]
    ensures Family(e) == Some("build") && ExplicitStart(e) && Reported(e, "build") == Running
  {
    assert e.kind[6..] == "started";
    BuildPrefix(e.kind);
    BuildFamily(e);
    StartedIsUnending(e.kind);
    UnendingStatus(e);
  }

  function OutputOf(r: Option<Record>): string { if r.Some? then Str(Get(r.value.details, "output")) else "" }

  /** A window of the last 16000 characters over a sequence of texts. */
  function Window(start: string, texts: seq<string>): string {
    if texts == [] then start else Tail(Window(start, texts[..|texts| - 1]) + texts[|texts| - 1], TEXT_LIMIT)
  }

  function Concat(texts: seq<string>): string {
    if texts == [] then "" else Concat(texts[..|texts| - 1]) + texts[|texts| - 1]
  }

  lemma {:induction false} WindowIsTail(start: string, texts: seq<string>)
    requires |start| <= TEXT_LIMIT
    ensures Window(start, texts) == Tail(start + Concat(texts), TEXT_LIMIT)
  {
    if texts == [] {
      assert start + "" == start;
    } else {
      var before, last := texts[..|texts| - 1], texts[|texts| - 1];
      WindowIsTail(start, before);
      JoinTails(start, Concat(before), last);
    }
  }

  lemma JoinTails(a: string, b: string, c: string)
    ensures Tail(Tail(a + b, TEXT_LIMIT) + c, TEXT_LIMIT) == Tail(a + (b + c), TEXT_LIMIT)
  {
    TailOfTail(a + b, c, TEXT_LIMIT);
    assert (a + b) + c == a + (b + c);
  }

  /** Shown output events and their texts. */
  ghost predicate Prints(events: seq<Event>, texts: seq<string>) {
    && |texts| == |events|
    && forall i :: 0 <= i < |events| ==>
         Family(events[i]).Some? && EndsWith(events[i].kind, "output")
           && Get(events[i].fields, "output") == Text(texts[i])
  }

  /** However a long output is split into events, the record ends with the last 16000 characters of all of it. */
  lemma {:induction false} OutputKeepsItsTail(events: seq<Event>, texts: seq<string>, previous: Option<Record>)
    requires Prints(events, texts) && |OutputOf(previous)| <= TEXT_LIMIT
    ensures OutputOf(Fold(events, previous)) == Tail(OutputOf(previous) + Concat(texts), TEXT_LIMIT)
  {
    OutputIsWindow(events, texts, previous);
    WindowIsTail(OutputOf(previous), texts);
  }

  lemma {:induction false} OutputIsWindow(events: seq<Event>, texts: seq<string>, previous: Option<Record>)
    requires Prints(events, texts)
    ensures OutputOf(Fold(events, previous)) == Window(OutputOf(previous), texts)
  {
    if events != [] {
      var n := |events| - 1;
      OutputIsWindow(events[..n], texts[..n], previous);
      OneOutput(events[n], Family(events[n]).value, Fold(events[..n], previous));
    }
  }

  lemma OneOutput(e: Event, family: string, before: Option<Record>)
    requires IsOutput(e)
    ensures OutputOf(Some(Projected(e, family, before)))
            == Tail(OutputOf(before) + Str(Get(e.fields, "output")), TEXT_LIMIT)
  {
    var kept := if NewAttempt(e, before) || before.None? then map[] else before.value.details;
    OutputIsGrown(e, family, if before.Some? then before.value.details else map[], kept);
  }

  lemma OutputIsGrown(e: Event, family: string, earlier: Fields, kept: Fields)
    requires IsOutput(e)
    ensures Get(Details(e, family, earlier, kept), "output")
         == Text(Tail(Str(Get(earlier, "output")) + Str(Get(e.fields, "output")), TEXT_LIMIT))
  {
    var copied := Copied(Copied(Copied(kept, ArgumentsOf(e), ALLOWED), ResultOf(e), ALLOWED), e.fields, ALLOWED);
    SummaryElsewhere(Grown(copied, e, earlier), e, family, "output");
    var summarized := Summarized(Grown(copied, e, earlier), e, family);
    PresentedElsewhere(summarized, e, "output");
    LabelledAt(Presented(summarized, e), e.fields, LABELS, "output");
  }

  lemma SummaryElsewhere(details: Fields, e: Event, family: string, key: string)
    requires key != "summary"
    ensures Get(Summarized(details, e, family), key) == Get(details, key)
  {
  }

  lemma PresentedElsewhere(details: Fields, e: Event, key: string)
    requires key != "files" && key != "count"
    ensures Get(Presented(details, e), key) == Get(details, key)
  {
  }

  lemma {:induction false} LabelledAt(details: Fields, source: Fields, keys: seq<string>, key: string)
    ensures Get(Labelled(details, source, keys), key)
         == if key in keys && Label(Get(source, key)) then Get(source, key) else Get(details, key)
  {
    if keys != [] {
      var n := |keys| - 1;
      assert keys == keys[..n] + [keys[n]];
      LabelledAt(details, source, keys[..n], key);
    }
  }

  /** Texts and lists are cut to size. */
  predicate Small(v: Json) { (v.Text? ==> |v.text| <= TEXT_LIMIT) && (v.Items? ==> |v.items| <= LIST_LIMIT) }

  /** A presented file shows five keys, its texts cut to their own sizes. */
  predicate SafeFile(v: Json) {
    && v.Dict? && v.entries.Keys == {"path", "description", "bytes", "sha256", "staged"}
    && v.entries["path"].Text? && 0 < |v.entries["path"].text| <= PATH_LIMIT
    && v.entries["description"].Text? && |v.entries["description"].text| <= DESCRIPTION_LIMIT
    && v.entries["sha256"].Text? && |v.entries["sha256"].text| <= DIGEST_LIMIT
    && v.entries["bytes"].Number? && v.entries["staged"].Flag?
  }

  /** At most 32 presented files. */
  predicate FileList(v: Json) {
    v.Items? && |v.items| <= FILES_LIMIT && forall i :: 0 <= i < |v.items| ==> SafeFile(v.items[i])
  }

  /** The list of presented files, if there is one, comes with its length. */
  ghost predicate Handover(details: Fields) {
    && ("files" in details <==> "count" in details)
    && ("files" in details ==> FileList(details["files"]) && details["count"] == Number(|details["files"].items|))
  }

  /** Nothing but the allowed keys, with everything except the labels cut to size, and at most one list of presented
      files. */
  ghost predicate Shareable(details: Fields) {
    && Handover(details)
    && forall key :: key in details ==>
         key == "files" || key == "count" || (key in ALLOWED && (key in LABELS || Small(details[key])))
  }

  /** Keys of the allow list other than those of presented files. */
  ghost predicate Plain(keys: seq<string>) {
    forall i :: 0 <= i < |keys| ==> keys[i] in ALLOWED && keys[i] != "files" && keys[i] != "count"
  }

  lemma OneMoreKey(details: Fields, key: string, v: Json)
    requires Shareable(details) && key in ALLOWED && key != "files" && key != "count" && (key in LABELS || Small(v))
    ensures Shareable(details[key := v])
  {
  }

  lemma {:induction false} CopiedIsShareable(details: Fields, source: Fields, keys: seq<string>)
    requires Shareable(details) && Plain(keys)
    ensures Shareable(Copied(details, source, keys))
  {
    if keys != [] {
      var n := |keys| - 1;
      CopiedIsShareable(details, source, keys[..n]);
      var v := Public(keys[n], Get(source, keys[n]));
      if v.Some? {
        OneMoreKey(Copied(details, source, keys[..n]), keys[n], v.value);
      }
    }
  }

  lemma {:induction false} LabelledIsShareable(details: Fields, source: Fields, keys: seq<string>)
    requires Shareable(details) && Plain(keys) && forall i :: 0 <= i < |keys| ==> keys[i] in LABELS
    ensures Shareable(Labelled(details, source, keys))
  {
    if keys != [] {
      var n := |keys| - 1;
      LabelledIsShareable(details, source, keys[..n]);
      if Label(Get(source, keys[n])) {
        OneMoreKey(Labelled(details, source, keys[..n]), keys[n], Get(source, keys[n]));
      }
    }
  }

  lemma AllowedKeysArePlain()
    ensures Plain(ALLOWED)
  {
    forall i | 0 <= i < |ALLOWED| ensures ALLOWED[i] != "files" && ALLOWED[i] != "count" {
      assert |ALLOWED[i]| == 5 ==> ALLOWED[i][0] != 'f' && ALLOWED[i][0] != 'c';
    }
  }

  lemma LabelsArePlain()
    ensures Plain(LABELS)
  {
    assert ALLOWED[32] == LABELS[0] && ALLOWED[33] == LABELS[1] && ALLOWED[34] == LABELS[2];
    assert ALLOWED[35] == LABELS[3] && ALLOWED[36] == LABELS[4];
  }

  lemma SummarizedIsShareable(details: Fields, e: Event, family: string)
    requires Shareable(details)
    ensures Shareable(Summarized(details, e, family))
  {
    SpokenIsShareable(details, e, family);
    PreparedIsShareable(Spoken(details, e, family), e, family);
    DescribedIsShareable(Prepared(Spoken(details, e, family), e, family), e, family);
  }

  lemma OneSummary(details: Fields, text: string)
    requires Shareable(details) && |text| <= TEXT_LIMIT
    ensures Shareable(details["summary" := Text(text)])
  {
    assert ALLOWED[0] == "summary";
    OneMoreKey(details, "summary", Text(text));
  }

  lemma SpokenIsShareable(details: Fields, e: Event, family: string)
    requires Shareable(details)
    ensures Shareable(Spoken(details, e, family))
  {
    OneSummary(details, Message(e));
  }

  lemma PreparedIsShareable(details: Fields, e: Event, family: string)
    requires Shareable(details)
    ensures Shareable(Prepared(details, e, family))
  {
    OneSummary(details, Message(e));
    OneSummary(details, "Prepared project context and available tools.");
  }

  lemma DescribedIsShareable(details: Fields, e: Event, family: string)
    requires Shareable(details)
    ensures Shareable(Described(details, e, family))
  {
    OneSummary(details, Message(e));
  }

  lemma GrownIsShareable(details: Fields, e: Event, earlier: Fields)
    requires Shareable(details)
    ensures Shareable(Grown(details, e, earlier))
  {
    if IsOutput(e) {
      assert ALLOWED[27] == "output";
      var text := Tail(Str(Get(earlier, "output")) + Get(e.fields, "output").text, TEXT_LIMIT);
      OneMoreKey(details, "output", Text(text));
    }
  }

  lemma {:induction false} PresentedFilesAreSafe(items: seq<Json>)
    ensures |PresentedFiles(items)| <= |items|
    ensures forall i :: 0 <= i < |PresentedFiles(items)| ==> SafeFile(PresentedFiles(items)[i])
  {
    if items != [] {
      PresentedFilesAreSafe(items[..|items| - 1]);
      PresentedFileIsSafe(items[|items| - 1]);
    }
  }

  lemma PresentedFileIsSafe(item: Json)
    ensures PresentedFile(item).Some? ==> SafeFile(PresentedFile(item).value)
  {
  }

  lemma PresentedIsShareable(details: Fields, e: Event)
    requires Shareable(details)
    ensures Shareable(Presented(details, e))
  {
    var files := Get(ResultOf(e), "files");
    if Tool(e) == "present_files" && files.Items? {
      PresentedFilesAreSafe(Cut(files.items, FILES_LIMIT));
    }
  }

  lemma DetailsAreShareable(e: Event, family: string, earlier: Fields, kept: Fields)
    requires Shareable(kept)
    ensures Shareable(Details(e, family, earlier, kept))
  {
    CopiesAreShareable(e, kept);
    var copied := Copied(Copied(Copied(kept, ArgumentsOf(e), ALLOWED), ResultOf(e), ALLOWED), e.fields, ALLOWED);
    GrownIsShareable(copied, e, earlier);
    var grown := Grown(copied, e, earlier);
    SummarizedIsShareable(grown, e, family);
    var summarized := Summarized(grown, e, family);
    PresentedIsShareable(summarized, e);
    LabelsArePlain();
    LabelledIsShareable(Presented(summarized, e), e.fields, LABELS);
  }

  lemma CopiesAreShareable(e: Event, kept: Fields)
    requires Shareable(kept)
    ensures Shareable(Copied(Copied(Copied(kept, ArgumentsOf(e), ALLOWED), ResultOf(e), ALLOWED), e.fields, ALLOWED))
  {
    AllowedKeysArePlain();
    CopiedIsShareable(kept, ArgumentsOf(e), ALLOWED);
    CopiedIsShareable(Copied(kept, ArgumentsOf(e), ALLOWED), ResultOf(e), ALLOWED);
    CopiedIsShareable(Copied(Copied(kept, ArgumentsOf(e), ALLOWED), ResultOf(e), ALLOWED), e.fields, ALLOWED);
  }

  /** Whatever events carry, no record ever shows a key outside the allow list and the hand-over, nor anything uncut
      under another key than a label. */
  lemma {:induction false} RecordsAreShareable(events: seq<Event>)
    ensures Fold(events, None).Some? ==> Shareable(Fold(events, None).value.details)
  {
    if events != [] {
      var n := |events| - 1;
      RecordsAreShareable(events[..n]);
      ProjectionIsShareable(events[n], Fold(events[..n], None));
    }
  }

  lemma ProjectionIsShareable(e: Event, before: Option<Record>)
    requires before.Some? ==> Shareable(before.value.details)
    ensures Project(e, before).Some? ==> Shareable(Project(e, before).value.details)
  {
    if Family(e).Some? {
      var kept := if NewAttempt(e, before) || before.None? then map[] else before.value.details;
      DetailsAreShareable(e, Family(e).value, if before.Some? then before.value.details else map[], kept);
    }
  }

  /** A label is stored whole: it stays within the text limit exactly when the event's own value does. */
  lemma LabelsAreUncut(e: Event, family: string, earlier: Fields, kept: Fields, key: string)
    requires key in LABELS && Label(Get(e.fields, key))
    ensures Get(Details(e, family, earlier, kept), key) == Get(e.fields, key)
  {
    var copied := Copied(Copied(Copied(kept, ArgumentsOf(e), ALLOWED), ResultOf(e), ALLOWED), e.fields, ALLOWED);
    LabelledAt(Presented(Summarized(Grown(copied, e, earlier), e, family), e), e.fields, LABELS, key);
  }
}
