/** The journal of activity records: each event is projected onto the latest record of its run and correlation. */
module ActivityJournal {
  import opened Common
  import opened ActivityEvents
  import opened ActivityStream
  import opened ActivityLaws

  /** The latest record of a run and correlation. */
  function Latest(history: seq<Record>, run: Json, correlation: Identity): (r: Option<Record>)
    ensures r.Some? ==> r.value in history && r.value.run == run && r.value.correlation == correlation
  {
    if history == [] then None
    else
      var last := history[|history| - 1];
      if last.run == run && last.correlation == correlation then Some(last)
      else Latest(history[..|history| - 1], run, correlation)
  }

  /** An event is recorded when it names a run and belongs to a shown family. */
  predicate Recorded(e: Event) { Truthy(Get(e.fields, "run_id")) && Family(e).Some? }

  function Correlation(e: Event): Identity
    requires Recorded(e)
  {
    IdentityOf(e, Family(e).value)
  }

  function Append(history: seq<Record>, e: Event): seq<Record> {
    if !Recorded(e) then history
    else history + [Projected(e, Family(e).value, Latest(history, Get(e.fields, "run_id"), Correlation(e)))]
  }

  function Journal(events: seq<Event>): seq<Record> {
    if events == [] then [] else Append(Journal(events[..|events| - 1]), events[|events| - 1])
  }

  predicate Concerns(e: Event, run: Json, correlation: Identity) {
    Recorded(e) && Get(e.fields, "run_id") == run && Correlation(e) == correlation
  }

  /** The events of one run and correlation. */
  function Stream(events: seq<Event>, run: Json, correlation: Identity): seq<Event> {
    if events == [] then []
    else
      var before, last := Stream(events[..|events| - 1], run, correlation), events[|events| - 1];
      if Concerns(last, run, correlation) then before + [last] else before
  }

  lemma LatestAppended(history: seq<Record>, r: Record, run: Json, correlation: Identity)
    ensures Latest(history + [r], run, correlation)
         == if r.run == run && r.correlation == correlation then Some(r) else Latest(history, run, correlation)
  {
    assert (history + [r])[..|history|] == history;
  }

  lemma FoldAppended(events: seq<Event>, e: Event, previous: Option<Record>)
    requires Family(e).Some?
    ensures Fold(events + [e], previous) == Some(Projected(e, Family(e).value, Fold(events, previous)))
  {
    assert (events + [e])[..|events|] == events;
  }

  lemma ProjectedBelongs(e: Event, family: string, before: Option<Record>)
    ensures var r := Projected(e, family, before);
            r.run == Get(e.fields, "run_id") && r.correlation == IdentityOf(e, family)
  {
  }

  /** Activities do not disturb each other: the latest record of a correlation is the fold of its own events alone. */
  lemma {:induction false} StreamsAreIndependent(events: seq<Event>, run: Json, correlation: Identity)
    ensures Latest(Journal(events), run, correlation) == Fold(Stream(events, run, correlation), None)
  {
    if events != [] {
      var before, e := events[..|events| - 1], events[|events| - 1];
      StreamsAreIndependent(before, run, correlation);
      if Recorded(e) {
        var last := Latest(Journal(before), Get(e.fields, "run_id"), Correlation(e));
        ProjectedBelongs(e, Family(e).value, last);
        LatestAppended(Journal(before), Projected(e, Family(e).value, last), run, correlation);
        if Concerns(e, run, correlation) {
          FoldAppended(Stream(before, run, correlation), e, None);
        }
      }
    }
  }

  ghost predicate Increasing(events: seq<Event>) {
    forall i, j :: 0 <= i < j < |events| ==> events[i].sequence < events[j].sequence
  }

  /** Every record is identified by its own run and correlation, and by a sequence not above `limit`. */
  ghost predicate Identified(history: seq<Record>, limit: int) {
    forall a :: a in history ==> a.id.run == a.run && a.id.identity == a.correlation && a.id.sequence <= limit
  }

  /** Records with one identity are one attempt at one activity. */
  ghost predicate IdsAreFaithful(history: seq<Record>) {
    forall a, b :: a in history && b in history && a.id == b.id ==>
      a.run == b.run && a.correlation == b.correlation && a.startedAt == b.startedAt
  }

  /** Either the identity and start of the latest record, or a new identity made from the event's sequence. */
  lemma ProjectedIdentity(e: Event, family: string, before: Option<Record>)
    ensures var r := Projected(e, family, before);
            || (before.Some? && r.id == before.value.id && r.startedAt == before.value.startedAt)
            || r.id == Id(Get(e.fields, "run_id"), IdentityOf(e, family), e.sequence)
  {
  }

  lemma AppendKeepsIds(history: seq<Record>, r: Record, source: Option<Record>, limit: int, sequence: int)
    requires Identified(history, limit) && IdsAreFaithful(history) && limit < sequence
    requires source.Some? ==>
              source.value in history && source.value.run == r.run && source.value.correlation == r.correlation
    requires (source.Some? && r.id == source.value.id && r.startedAt == source.value.startedAt)
             || r.id == Id(r.run, r.correlation, sequence)
    ensures Identified(history + [r], sequence) && IdsAreFaithful(history + [r])
  {
  }

  /** In any journal with increasing sequences an identity is never used for a second activity or a second attempt. */
  lemma {:induction false} IdsNameAttempts(events: seq<Event>)
    requires Increasing(events)
    ensures IdsAreFaithful(Journal(events))
    ensures events != [] ==> Identified(Journal(events), events[|events| - 1].sequence)
  {
    if events != [] {
      var n := |events| - 1;
      var before, e := events[..n], events[n];
      IdsNameAttempts(before);
      var history := Journal(before);
      var limit := if before == [] then e.sequence - 1 else before[n - 1].sequence;
      assert limit < e.sequence;
      if Recorded(e) {
        var last := Latest(history, Get(e.fields, "run_id"), Correlation(e));
        ProjectedBelongs(e, Family(e).value, last);
        ProjectedIdentity(e, Family(e).value, last);
        AppendKeepsIds(history, Projected(e, Family(e).value, last), last, limit, e.sequence);
      }
    }
  }
}
