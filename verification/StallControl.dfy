/** When the agent loop gives up: stall counting, reorientation and repairs without builds; and what resuming does to
    that. */
module StallControl {
  import opened Common

  /** Unproductive tool turns in a row, and the turn at which the model was reoriented. */
  datatype Stall = Stall(turns: nat, reorientedAt: Option<int>)

  datatype Verdict = Go | Warn | Reorient | NoProgress

  const FRESH_STALL := Stall(0, None)

  function SettleStall(s: Stall, made: bool, turn: int): (Stall, Verdict) {
    if made then (FRESH_STALL, Go)
    else
      var n := s.turns + 1;
      if n == 2 then (Stall(n, s.reorientedAt), Warn)
      else if n < 3 then (Stall(n, s.reorientedAt), Go)
      else match s.reorientedAt
        case None => (Stall(n, Some(turn)), Reorient)
        case Some(at) => (Stall(n, s.reorientedAt), if n >= 5 || turn - at >= 2 then NoProgress else Go)
  }

  /** Tool turns since a failed build that neither built again nor changed anything. */
  function SettleRepair(repair: nat, failing: bool, rebuilt: bool): nat {
    if failing && !rebuilt then repair + 1 else 0
  }

  const REPAIR_LIMIT := 6
  const SAVED_PROGRESS := 10

  /**
   The loop state these decisions read. `structured` says that the generation controller judges the run's progress
   while no build has passed; `material` that the controller noted something new since the last settled turn.
   */
  datatype Control = Control(
    stall: Stall, repair: nat, attempted: bool, passed: bool, progress: seq<int>, structured: bool, material: bool)

  function Fresh(structured: bool): Control { Control(FRESH_STALL, 0, false, false, [], structured, false) }

  predicate Failing(c: Control) { c.attempted && !c.passed }

  /**
   What happened in one tool turn. `build` is the build status left by the turn, or nothing if the turn left that status
   as it was; `judged` is the loop's own view of progress, `material` what the controller noted.
   */
  datatype Turn = Turn(turn: int, build: Option<(bool, bool)>, rebuilt: bool, progressed: bool, judged: bool,
                       material: bool)

  datatype Decision = Continue(verdict: Verdict) | RepairExhausted | Stalled

  function WithStatus(c: Control, t: Turn): Control {
    match t.build
    case None => c
    case Some((attempted, passed)) => c.(attempted := attempted, passed := passed)
  }

  /** Whether the turn counts as progress: the controller's view replaces the loop's while no build has passed. */
  predicate Made(c: Control, t: Turn) {
    if c.structured && !WithStatus(c, t).passed then c.material || t.material else t.judged
  }

  function Settle(c: Control, t: Turn): (Control, Decision) {
    var status := WithStatus(c, t);
    var repair := SettleRepair(c.repair, Failing(status), t.rebuilt);
    if repair >= REPAIR_LIMIT then (status.(repair := repair), RepairExhausted)
    else
      var (stall, verdict) := SettleStall(c.stall, Made(c, t), t.turn);
      var progress := if t.progressed then c.progress + [t.turn] else c.progress;
      (status.(repair := repair, progress := progress, stall := stall, material := false),
       if verdict.NoProgress? then Stalled else Continue(verdict))
  }

  /** The decisions of a run, up to and including the first one that stops it. */
  function Decisions(c: Control, turns: seq<Turn>): seq<Decision>
    decreases |turns|
  {
    if turns == [] then []
    else
      var (c', d) := Settle(c, turns[0]);
      [d] + if d.Continue? then Decisions(c', turns[1..]) else []
  }

  ghost predicate Increasing(turns: seq<Turn>) {
    forall i, j :: 0 <= i < j < |turns| ==> turns[i].turn < turns[j].turn
  }

  /** The state after every turn of `turns` was decided to continue. */
  function After(c: Control, turns: seq<Turn>): Control {
    if turns == [] then c else Settle(After(c, turns[..|turns| - 1]), turns[|turns| - 1]).0
  }

  function DecisionAt(c: Control, turns: seq<Turn>, i: nat): Decision
    requires i < |turns|
  {
    Settle(After(c, turns[..i]), turns[i]).1
  }

  /** `After` and `DecisionAt` describe the same run as `Decisions`. */
  lemma {:induction false} DecisionsFromFront(c: Control, turns: seq<Turn>)
    requires turns != [] && Settle(c, turns[0]).1.Continue?
    ensures After(c, turns) == After(Settle(c, turns[0]).0, turns[1..])
    decreases |turns|
  {
    if |turns| > 1 {
      var init := turns[..|turns| - 1];
      DecisionsFromFront(c, init);
      assert init[1..] == turns[1..][..|turns[1..]| - 1];
    }
  }

  lemma {:induction false} DecisionsAreDecisionAt(c: Control, turns: seq<Turn>, i: nat)
    requires i < |Decisions(c, turns)|
    ensures i < |turns| && Decisions(c, turns)[i] == DecisionAt(c, turns, i)
    ensures i + 1 < |Decisions(c, turns)| ==> Decisions(c, turns)[i].Continue?
    decreases |turns|
  {
    var (c', d) := Settle(c, turns[0]);
    if i > 0 {
      DecisionsAreDecisionAt(c', turns[1..], i - 1);
      DecisionsFromFront(c, turns[..i]);
      assert turns[..i][1..] == turns[1..][..i - 1];
    }
  }

  ghost predicate AllContinue(c: Control, turns: seq<Turn>) {
    forall i :: 0 <= i < |turns| ==> DecisionAt(c, turns, i).Continue?
  }

  /** Appending one settled turn to a run. */
  lemma OneMoreTurn(c: Control, turns: seq<Turn>, t: Turn)
    requires AllContinue(c, turns)
    ensures After(c, turns + [t]) == Settle(After(c, turns), t).0
    ensures DecisionAt(c, turns + [t], |turns|) == Settle(After(c, turns), t).1
    ensures (turns + [t])[..|turns|] == turns
    ensures Settle(After(c, turns), t).1.Continue? ==> AllContinue(c, turns + [t])
  {
    assert (turns + [t])[..|turns|] == turns;
    forall i | 0 <= i < |turns| ensures DecisionAt(c, turns + [t], i) == DecisionAt(c, turns, i) {
      assert (turns + [t])[..i] == turns[..i];
    }
  }

  /** The number of unproductive turns at the end of a run that began in `c`. */
  function Streak(c: Control, turns: seq<Turn>): nat {
    if turns == [] then 0
    else
      var init := turns[..|turns| - 1];
      if Made(After(c, init), turns[|turns| - 1]) then 0 else Streak(c, init) + 1
  }

  /** The turn that reoriented the model, as far back as the stall says. */
  ghost predicate ReorientedIn(c: Control, turns: seq<Turn>, stall: Stall, i: nat) {
    && stall.reorientedAt.Some? && i < |turns| && turns[i].turn == stall.reorientedAt.value
    && DecisionAt(c, turns, i) == Continue(Reorient)
    && turns[i].turn <= turns[|turns| - 1].turn - (stall.turns - 3)
  }

  /** The stall counter is the streak of unproductive turns, and a long streak has been reoriented since its third
      turn. */
  lemma {:induction false} StallCountsTheStreak(structured: bool, turns: seq<Turn>)
    requires Increasing(turns) && AllContinue(Fresh(structured), turns)
    ensures var stall := After(Fresh(structured), turns).stall;
            && stall.turns == Streak(Fresh(structured), turns) <= 4
            && (stall.reorientedAt.Some? <==> stall.turns >= 3)
            && (stall.reorientedAt.Some? ==> exists i :: ReorientedIn(Fresh(structured), turns, stall, i))
  {
    var c := Fresh(structured);
    if turns != [] {
      var n := |turns| - 1;
      var init := turns[..n];
      InitContinues(c, turns);
      StallCountsTheStreak(structured, init);
      assert DecisionAt(c, turns, n).Continue?;
      var before, after := After(c, init).stall, After(c, turns).stall;
      if after.reorientedAt.Some? {
        if before.reorientedAt.Some? {
          var i :| ReorientedIn(c, init, before, i);
          assert turns[n - 1].turn < turns[n].turn;
          InitDecision(c, turns, i);
          assert ReorientedIn(c, turns, after, i);
        } else {
          assert ReorientedIn(c, turns, after, n);
        }
      }
    }
  }

  lemma InitDecision(c: Control, turns: seq<Turn>, i: nat)
    requires i < |turns| - 1
    ensures DecisionAt(c, turns[..|turns| - 1], i) == DecisionAt(c, turns, i)
  {
    assert turns[..|turns| - 1][..i] == turns[..i];
  }

  lemma InitContinues(c: Control, turns: seq<Turn>)
    requires turns != [] && AllContinue(c, turns)
    ensures AllContinue(c, turns[..|turns| - 1])
  {
    var n := |turns| - 1;
    forall i | 0 <= i < n ensures DecisionAt(c, turns[..n], i).Continue? {
      InitDecision(c, turns, i);
      assert DecisionAt(c, turns, i).Continue?;
    }
  }

  /** From a fresh start at most five tool turns in a row are unproductive, and the run then stops. */
  lemma FiveUnproductiveTurnsStop(structured: bool, turns: seq<Turn>)
    requires turns != [] && Increasing(turns) && AllContinue(Fresh(structured), turns[..|turns| - 1])
    ensures Streak(Fresh(structured), turns) <= 5
    ensures Streak(Fresh(structured), turns) == 5 ==> !DecisionAt(Fresh(structured), turns, |turns| - 1).Continue?
  {
    StallCountsTheStreak(structured, turns[..|turns| - 1]);
  }

  /** What a no-progress stop needs. */
  lemma StalledTurn(c: Control, t: Turn)
    requires Settle(c, t).1.Stalled?
    ensures c.stall.turns >= 2 && c.stall.reorientedAt.Some?
    ensures c.stall.turns >= 4 || t.turn - c.stall.reorientedAt.value >= 2
  {
  }

  /** A no-progress stop comes at least two turns after the turn that reoriented the model. */
  lemma StopFollowsReorientation(structured: bool, turns: seq<Turn>) returns (i: nat)
    requires turns != [] && Increasing(turns) && AllContinue(Fresh(structured), turns[..|turns| - 1])
    requires DecisionAt(Fresh(structured), turns, |turns| - 1).Stalled?
    ensures i < |turns| && DecisionAt(Fresh(structured), turns, i) == Continue(Reorient)
    ensures turns[i].turn + 2 <= turns[|turns| - 1].turn
  {
    var c, n := Fresh(structured), |turns| - 1;
    var init := turns[..n];
    StallCountsTheStreak(structured, init);
    var stall := After(c, init).stall;
    StalledTurn(After(c, init), turns[n]);
    i :| ReorientedIn(c, init, stall, i);
    InitDecision(c, turns, i);
    assert turns[n - 1].turn < turns[n].turn;
  }

  // ---------------------------------------------------------------- saving and resuming

  datatype Checkpoint = Checkpoint(stall: Stall, repair: nat, progress: seq<int>)

  function Save(c: Control): Checkpoint { Checkpoint(c.stall, c.repair, Tail(c.progress, SAVED_PROGRESS)) }

  /** What a resuming run did about its saved build record: nothing, or one build that left this status, and whether the
      controller noted that build as something new. */
  datatype Rebuild = NotRebuilt | Rebuilt(attempted: bool, passed: bool, material: bool)

  /**
   A resumed loop starts with no build attempted. If the newest saved build record is a success, the draft is built
   again where that is possible; a build that passes clears the stall.
   */
  function Resume(p: Checkpoint, structured: bool, recorded: bool, rebuild: Rebuild): Control {
    if recorded && rebuild.Rebuilt?
    then Control(if rebuild.passed then FRESH_STALL else p.stall, p.repair, rebuild.attempted, rebuild.passed,
                 p.progress, structured, rebuild.material)
    else Control(p.stall, p.repair, false, false, p.progress, structured, false)
  }

  /** The loop `c` was saved from, resumed under the same configuration. */
  function Resumed(c: Control, recorded: bool, rebuild: Rebuild): Control {
    Resume(Save(c), c.structured, recorded, rebuild)
  }

  /**
   The resumed loop is failing exactly if the saved one was, and a rebuild that passed found no stall to clear. Where
   the controller judges, moreover, a build has passed in both loops or in neither, and the rebuild was nothing new to
   it. All of it can be read off the saved state, the saved record and the rebuild.
   */
  predicate ResumesAlike(c: Control, recorded: bool, rebuild: Rebuild) {
    if !recorded || rebuild.NotRebuilt? then !Failing(c) && (c.structured ==> !c.passed)
    else
      && Failing(c) == (rebuild.attempted && !rebuild.passed)
      && (rebuild.passed ==> c.stall == FRESH_STALL)
      && (c.structured ==> c.passed == rebuild.passed && !rebuild.material)
  }

  /** States the loop can be saved in: repair count below its limit, nothing noted since, progress turns in order. */
  ghost predicate Settled(c: Control) { c.repair < REPAIR_LIMIT && !c.material && Nondecreasing(c.progress) }

  /** Two states that no later turn can tell apart. */
  predicate Alike(a: Control, b: Control) {
    && a.stall == b.stall && a.repair == b.repair && Failing(a) == Failing(b) && a.structured == b.structured
    && (a.structured ==> a.passed == b.passed && a.material == b.material)
  }

  lemma AlikeStatesStepAlike(a: Control, b: Control, t: Turn)
    requires Alike(a, b)
    ensures Settle(a, t).1 == Settle(b, t).1
    ensures Settle(a, t).1.Continue? ==> Alike(Settle(a, t).0, Settle(b, t).0)
  {
  }

  /** Alike states stay alike as long as the run goes on, and every decision up to the first stop is the same. */
  lemma {:induction false} AlikeStatesStayAlike(a: Control, b: Control, turns: seq<Turn>)
    requires Alike(a, b) && AllContinue(a, turns)
    ensures AllContinue(b, turns) && Alike(After(a, turns), After(b, turns))
  {
    if turns != [] {
      var n := |turns| - 1;
      InitContinues(a, turns);
      AlikeStatesStayAlike(a, b, turns[..n]);
      assert DecisionAt(a, turns, n).Continue?;
      AlikeStatesStepAlike(After(a, turns[..n]), After(b, turns[..n]), turns[n]);
      forall i | 0 <= i < |turns| ensures DecisionAt(b, turns, i).Continue? {
        if i < n {
          InitDecision(b, turns, i);
          assert DecisionAt(b, turns[..n], i).Continue?;
        }
      }
    }
  }

  lemma {:induction false} AlikeStatesDecideAlike(a: Control, b: Control, turns: seq<Turn>)
    requires Alike(a, b)
    ensures Decisions(a, turns) == Decisions(b, turns)
    decreases |turns|
  {
    if turns != [] {
      AlikeStatesStepAlike(a, b, turns[0]);
      if Settle(a, turns[0]).1.Continue? {
        AlikeStatesDecideAlike(Settle(a, turns[0]).0, Settle(b, turns[0]).0, turns[1..]);
      }
    }
  }

  /** The resumed loop is alike exactly under the condition that can be checked beforehand. */
  lemma ResumedStateIsAlikeIff(c: Control, recorded: bool, rebuild: Rebuild)
    requires Settled(c)
    ensures ResumesAlike(c, recorded, rebuild) <==> Alike(Resumed(c, recorded, rebuild), c)
  {
  }

  // ---------------------------------------------------------------- turns as a run records them

  /** The turn with the status it left, where it left that of the state it was taken in. */
  function Recorded(c: Control, t: Turn): Turn {
    t.(build := Some(if t.build.Some? then t.build.value else (c.attempted, c.passed)))
  }

  lemma RecordedTurn(c: Control, t: Turn)
    ensures Settle(c, Recorded(c, t)) == Settle(c, t)
  {
  }

  function Resolved(c: Control, turns: seq<Turn>): (r: seq<Turn>)
    ensures |r| == |turns| && forall i :: 0 <= i < |r| ==> r[i].build.Some? && r[i].turn == turns[i].turn
  {
    if turns == [] then []
    else
      var init := turns[..|turns| - 1];
      Resolved(c, init) + [Recorded(After(c, init), turns[|turns| - 1])]
  }

  lemma {:induction false} ResolvedPrefix(c: Control, turns: seq<Turn>, n: nat)
    requires n <= |turns|
    ensures Resolved(c, turns)[..n] == Resolved(c, turns[..n])
    decreases |turns|
  {
    if n < |turns| {
      var init := turns[..|turns| - 1];
      ResolvedPrefix(c, init, n);
      assert init[..n] == turns[..n];
      assert Resolved(c, turns)[..n] == Resolved(c, init)[..n];
    } else {
      assert turns[..n] == turns;
    }
  }

  lemma {:induction false} ResolvedAfter(c: Control, turns: seq<Turn>)
    ensures After(c, Resolved(c, turns)) == After(c, turns)
  {
    if turns != [] {
      var n := |turns| - 1;
      ResolvedAfter(c, turns[..n]);
      RecordedTurn(After(c, turns[..n]), turns[n]);
      assert Resolved(c, turns)[..n] == Resolved(c, turns[..n]);
    }
  }

  lemma ResolvedDecision(c: Control, turns: seq<Turn>, i: nat)
    requires i < |turns|
    ensures DecisionAt(c, Resolved(c, turns), i) == DecisionAt(c, turns, i)
  {
    ResolvedPrefix(c, turns, i);
    ResolvedPrefix(c, turns, i + 1);
    ResolvedAfter(c, turns[..i]);
    RecordedTurn(After(c, turns[..i]), turns[i]);
    assert turns[..i + 1][..i] == turns[..i];
    assert Resolved(c, turns)[i] == Resolved(c, turns)[..i + 1][i];
  }

  /** Runs whose decisions agree turn by turn have the same decisions. */
  lemma {:induction false} DecisionsAgree(a: Control, s: seq<Turn>, b: Control, t: seq<Turn>)
    requires |s| == |t| && forall i :: 0 <= i < |s| ==> DecisionAt(a, s, i) == DecisionAt(b, t, i)
    ensures Decisions(a, s) == Decisions(b, t)
    decreases |s|
  {
    if s != [] {
      assert DecisionAt(a, s, 0) == DecisionAt(b, t, 0);
      if Settle(a, s[0]).1.Continue? {
        forall i | 0 <= i < |s| - 1
          ensures DecisionAt(Settle(a, s[0]).0, s[1..], i) == DecisionAt(Settle(b, t[0]).0, t[1..], i)
        {
          LaterDecision(a, s, i);
          LaterDecision(b, t, i);
          assert DecisionAt(a, s, i + 1) == DecisionAt(b, t, i + 1);
        }
        DecisionsAgree(Settle(a, s[0]).0, s[1..], Settle(b, t[0]).0, t[1..]);
      }
    }
  }

  lemma LaterDecision(c: Control, turns: seq<Turn>, i: nat)
    requires i + 1 < |turns| && Settle(c, turns[0]).1.Continue?
    ensures DecisionAt(Settle(c, turns[0]).0, turns[1..], i) == DecisionAt(c, turns, i + 1)
  {
    DecisionsFromFront(c, turns[..i + 1]);
    assert turns[..i + 1][1..] == turns[1..][..i];
  }

  lemma RecordedDecisions(c: Control, turns: seq<Turn>)
    ensures Decisions(c, Resolved(c, turns)) == Decisions(c, turns)
  {
    forall i | 0 <= i < |turns| ensures DecisionAt(c, Resolved(c, turns), i) == DecisionAt(c, turns, i) {
      ResolvedDecision(c, turns, i);
    }
    DecisionsAgree(c, Resolved(c, turns), c, turns);
  }

  // ---------------------------------------------------------------- the exact condition

  /**
   Saving and resuming leaves every later stall and repair decision unchanged, whatever the later turns do, exactly when
   the resumed loop starts alike. Both loops record the status each turn left in their own run.
   */
  lemma {:induction false} ResumeIsFaithfulIff(c: Control, recorded: bool, rebuild: Rebuild)
    requires Settled(c)
    ensures var r := Resumed(c, recorded, rebuild);
            ResumesAlike(c, recorded, rebuild) <==>
              forall turns :: Decisions(r, Resolved(r, turns)) == Decisions(c, Resolved(c, turns))
  {
    var r := Resumed(c, recorded, rebuild);
    ResumedStateIsAlikeIff(c, recorded, rebuild);
    if Alike(r, c) {
      forall turns ensures Decisions(r, Resolved(r, turns)) == Decisions(c, Resolved(c, turns)) {
        RecordedDecisions(c, turns);
        RecordedDecisions(r, turns);
        AlikeStatesDecideAlike(r, c, turns);
      }
    } else {
      var turns := UnlikeTurns(c, r, 0);
      RecordedDecisions(c, turns);
      RecordedDecisions(r, turns);
      assert Decisions(r, Resolved(r, turns)) != Decisions(c, Resolved(c, turns));
    }
  }

  /** Turns on which a saved state and what it resumed to are decided differently, if they are not alike. */
  lemma UnlikeTurns(c: Control, r: Control, from: int) returns (turns: seq<Turn>)
    requires c.repair == r.repair < REPAIR_LIMIT && c.structured == r.structured && !c.material && !Alike(r, c)
    requires r.stall == c.stall || (r.stall == FRESH_STALL && r.passed)
    ensures Decisions(r, turns) != Decisions(c, turns)
  {
    if Failing(c) != Failing(r) {
      turns := Learning(from, REPAIR_LIMIT - c.repair, true);
      var failing, other := if Failing(c) then c else r, if Failing(c) then r else c;
      LearningWhileFailing(failing, from, REPAIR_LIMIT - c.repair, true);
      LearningWithoutFailure(other, from, REPAIR_LIMIT - c.repair, true);
    } else if r.stall != c.stall {
      turns := Idling(from, 3);
      FreshStallIdles(r, from);
      if Decisions(c, turns) == Decisions(r, turns) {
        OtherStallsIdle(c, from);
      }
    } else if c.passed != r.passed {
      turns := Reading(from, 3);
      var passed, other := if c.passed then c else r, if c.passed then r else c;
      ReadingAfterPass(passed, from);
      if Decisions(c, turns) == Decisions(r, turns) {
        ReadingStalls(other, from);
      }
    } else {
      turns := [Dropping(from)] + Idling(from + 1, 3);
      NotedTurnsDiffer(c, r, from, turns);
    }
  }

  /** Turns that find something new, and material to the controller, but neither build nor edit. */
  function Learning(from: int, count: nat, durable: bool): seq<Turn> {
    seq(count, i => Turn(from + i, None, false, durable, true, true))
  }

  lemma {:induction false} LearningWhileFailing(c: Control, from: int, count: nat, durable: bool)
    requires Failing(c) && c.repair < REPAIR_LIMIT && count == REPAIR_LIMIT - c.repair
    ensures RepairExhausted in Decisions(c, Learning(from, count, durable))
    decreases count
  {
    var turns := Learning(from, count, durable);
    var (c', d) := Settle(c, turns[0]);
    if count > 1 {
      assert turns[1..] == Learning(from + 1, count - 1, durable);
      LearningWhileFailing(c', from + 1, count - 1, durable);
    }
  }

  lemma {:induction false} LearningWithoutFailure(c: Control, from: int, count: nat, durable: bool)
    requires !Failing(c)
    ensures RepairExhausted !in Decisions(c, Learning(from, count, durable))
    decreases count
  {
    if count > 0 {
      var turns := Learning(from, count, durable);
      assert turns[1..] == Learning(from + 1, count - 1, durable);
      LearningWithoutFailure(Settle(c, turns[0]).0, from + 1, count - 1, durable);
    }
  }

  /** Turns in which nothing happens. */
  function Idling(from: int, count: nat): seq<Turn> {
    seq(count, i => Turn(from + i, None, false, false, false, false))
  }

  /** Turns that read something new, in which the controller notes nothing. */
  function Reading(from: int, count: nat): seq<Turn> {
    seq(count, i => Turn(from + i, None, false, true, true, false))
  }

  /** A turn after which the evidence of a build is gone, and nothing else. */
  function Dropping(turn: int): Turn { Turn(turn, Some((false, false)), false, false, false, false) }

  function Unproductive(c: Control, t: Turn): Control {
    WithStatus(c, t).(repair := 0, stall := SettleStall(c.stall, false, t.turn).0, material := false,
                      progress := if t.progressed then c.progress + [t.turn] else c.progress)
  }

  function IdleDecision(c: Control, turn: int): Decision {
    var verdict := SettleStall(c.stall, false, turn).1;
    if verdict.NoProgress? then Stalled else Continue(verdict)
  }

  /** A turn without progress in a state that is not failing. */
  lemma UnproductiveTurn(c: Control, t: Turn)
    requires !Failing(WithStatus(c, t)) && !Made(c, t)
    ensures Settle(c, t) == (Unproductive(c, t), IdleDecision(c, t.turn))
  {
  }

  /** The first of several turns, and the others. */
  lemma DecisionsHead(c: Control, turns: seq<Turn>)
    requires turns != []
    ensures var d, (after, first) := Decisions(c, turns), Settle(c, turns[0]);
            |d| > 0 && d[0] == first && d[1..] == if first.Continue? then Decisions(after, turns[1..]) else []
  {
  }

  /** Idle turns are unproductive here. */
  predicate StaysIdle(c: Control) { !Failing(c) && (c.structured && !c.passed ==> !c.material) }

  lemma IdleHead(c: Control, turn: int, count: nat)
    requires count > 0 && StaysIdle(c)
    ensures var d, after := Decisions(c, Idling(turn, count)), Unproductive(c, Idling(turn, 1)[0]);
            && |d| > 0 && d[0] == IdleDecision(c, turn) && StaysIdle(after)
            && after.stall == SettleStall(c.stall, false, turn).0
            && d[1..] == if d[0].Continue? then Decisions(after, Idling(turn + 1, count - 1)) else []
  {
    var turns := Idling(turn, count);
    UnproductiveTurn(c, turns[0]);
    DecisionsHead(c, turns);
    assert turns[1..] == Idling(turn + 1, count - 1);
  }

  /** Three idle turns after a cleared stall. */
  lemma FreshStallIdles(c: Control, from: int)
    requires StaysIdle(c) && c.stall == FRESH_STALL
    ensures Decisions(c, Idling(from, 3)) == [Continue(Go), Continue(Warn), Continue(Reorient)]
  {
    var c1 := Unproductive(c, Idling(from, 1)[0]);
    var c2 := Unproductive(c1, Idling(from + 1, 1)[0]);
    IdleHead(c, from, 3);
    IdleHead(c1, from + 1, 2);
    IdleHead(c2, from + 2, 1);
    var d := Decisions(c, Idling(from, 3));
    assert d == [d[0]] + d[1..] && d[1..] == [d[1]] + d[1..][1..] && d[1..][1..] == [d[2]] + d[1..][1..][1..];
  }

  /** After every other stall they are decided differently. */
  lemma OtherStallsIdle(c: Control, from: int)
    requires StaysIdle(c) && Decisions(c, Idling(from, 3)) == [Continue(Go), Continue(Warn), Continue(Reorient)]
    ensures c.stall == FRESH_STALL
  {
    var d := Decisions(c, Idling(from, 3));
    assert d[0] == Continue(Go) && d[1] == Continue(Warn) && d[2] == Continue(Reorient);
    IdleHead(c, from, 3);
    var c1 := Unproductive(c, Idling(from, 1)[0]);
    IdleHead(c1, from + 1, 2);
    assert d[1..][0] == d[1] && d[1..][1..][0] == d[2];
    var c2 := Unproductive(c1, Idling(from + 1, 1)[0]);
    IdleHead(c2, from + 2, 1);
    StallBefore(c.stall, c1.stall, c2.stall, from);
  }

  lemma StallBefore(s: Stall, s1: Stall, s2: Stall, from: int)
    requires SettleStall(s, false, from) == (s1, Go) && SettleStall(s1, false, from + 1) == (s2, Warn)
    requires SettleStall(s2, false, from + 2).1 == Reorient
    ensures s == FRESH_STALL
  {
  }

  /** With a passed build, reading something new is progress. */
  lemma ReadingAfterPass(c: Control, from: int)
    requires c.passed
    ensures Decisions(c, Reading(from, 3)) == [Continue(Go), Continue(Go), Continue(Go)]
  {
    var c1 := ReadHead(c, from, 3);
    var c2 := ReadHead(c1, from + 1, 2);
    var c3 := ReadHead(c2, from + 2, 1);
    var d := Decisions(c, Reading(from, 3));
    assert d == [d[0]] + d[1..] && d[1..] == [d[1]] + d[1..][1..] && d[1..][1..] == [d[2]] + d[1..][1..][1..];
  }

  /** Whether reading something new counts as progress here. */
  predicate ReadingMade(c: Control) { if c.structured && !c.passed then c.material else true }

  lemma ReadTurn(c: Control, t: Turn) returns (after: Control)
    requires !Failing(c) && t == Turn(t.turn, None, false, true, true, false)
    ensures var (stall, verdict) := SettleStall(c.stall, ReadingMade(c), t.turn);
            && Settle(c, t) == (after, if verdict.NoProgress? then Stalled else Continue(verdict))
            && after.stall == stall
    ensures after.passed == c.passed && !Failing(after) && after.structured == c.structured && !after.material
  {
    after := Settle(c, t).0;
  }

  lemma ReadHead(c: Control, turn: int, count: nat) returns (after: Control)
    requires count > 0 && !Failing(c)
    ensures after.passed == c.passed && !Failing(after) && after.structured == c.structured && !after.material
    ensures after.stall == SettleStall(c.stall, ReadingMade(c), turn).0
    ensures var d, verdict := Decisions(c, Reading(turn, count)), SettleStall(c.stall, ReadingMade(c), turn).1;
            && |d| > 0 && d[0] == (if verdict.NoProgress? then Stalled else Continue(verdict))
            && d[1..] == if d[0].Continue? then Decisions(after, Reading(turn + 1, count - 1)) else []
  {
    var turns := Reading(turn, count);
    after := ReadTurn(c, turns[0]);
    DecisionsHead(c, turns);
    assert turns[1..] == Reading(turn + 1, count - 1);
  }

  /** Where the controller judges and no build has passed, three such turns cannot all go without a word. */
  lemma ReadingStalls(c: Control, from: int)
    requires c.structured && !c.passed && !Failing(c)
    ensures Decisions(c, Reading(from, 3)) != [Continue(Go), Continue(Go), Continue(Go)]
  {
    var d := Decisions(c, Reading(from, 3));
    if d == [Continue(Go), Continue(Go), Continue(Go)] {
      assert d[0] == Continue(Go) && d[1] == Continue(Go) && d[2] == Continue(Go);
      var c1 := ReadHead(c, from, 3);
      var c2 := ReadHead(c1, from + 1, 2);
      assert d[1..][0] == d[1] && d[1..][1..][0] == d[2];
      var c3 := ReadHead(c2, from + 2, 1);
      ThreeStalls(c.stall, c.material, c1.stall, c2.stall, from);
    }
  }

  lemma ThreeStalls(s: Stall, made: bool, s1: Stall, s2: Stall, from: int)
    requires SettleStall(s, made, from) == (s1, Go) && SettleStall(s1, false, from + 1) == (s2, Go)
    ensures SettleStall(s2, false, from + 2).1 != Go
  {
  }

  /** What only the resumed loop had noted counts as its progress once the evidence is dropped. */
  lemma NotedTurnsDiffer(c: Control, r: Control, from: int, turns: seq<Turn>)
    requires c.structured && r.structured && !c.material && r.material && c.stall == r.stall
    requires turns == [Dropping(from)] + Idling(from + 1, 3)
    ensures Decisions(r, turns) != Decisions(c, turns)
  {
    assert turns[1..] == Idling(from + 1, 3);
    DecisionsHead(c, turns);
    DecisionsHead(r, turns);
    var c1, r1 := Settle(c, turns[0]).0, Settle(r, turns[0]).0;
    UnproductiveTurn(c, turns[0]);
    FreshStallIdles(r1, from + 1);
    if Decisions(r, turns) == Decisions(c, turns) {
      OtherStallsIdle(c1, from + 1);
    }
  }

  /** Every state a run settles in and goes on from can be saved. */
  lemma {:induction false} SettledTurnsCanBeSaved(c: Control, turns: seq<Turn>)
    requires Settled(c) && Onward(c, turns) && AllContinue(c, turns)
    ensures Settled(After(c, turns)) && (turns != [] ==> UpTo(After(c, turns).progress, turns[|turns| - 1].turn))
  {
    if turns != [] {
      var n := |turns| - 1;
      InitContinues(c, turns);
      SettledTurnsCanBeSaved(c, turns[..n]);
      assert DecisionAt(c, turns, n).Continue?;
      StepStaysUpTo(After(c, turns[..n]), turns[n]);
    }
  }

  ghost predicate UpTo(progress: seq<int>, turn: int) {
    Nondecreasing(progress) && (progress != [] ==> progress[|progress| - 1] <= turn)
  }

  ghost predicate Onward(c: Control, turns: seq<Turn>) {
    && Nondecreasing(c.progress) && Increasing(turns)
    && (turns != [] ==> UpTo(c.progress, turns[0].turn))
  }

  lemma StepStaysUpTo(c: Control, t: Turn)
    requires UpTo(c.progress, t.turn)
    ensures UpTo(Settle(c, t).0.progress, t.turn)
  {
    var p := c.progress + [t.turn];
    assert forall i :: 0 <= i < |c.progress| ==> p[i] <= c.progress[|c.progress| - 1];
  }

  // ---------------------------------------------------------------- inputs on which the resumed loop decides otherwise

  /** Nothing was built again, and the failure of the saved build is forgotten: the count of repair turns starts
      anew. */
  lemma AForgottenFailure()
    ensures var c := Fresh(false).(attempted := true);
            var r, turns := Resumed(c, false, NotRebuilt), Learning(1, REPAIR_LIMIT, false);
            && RepairExhausted in Decisions(c, Resolved(c, turns))
            && RepairExhausted !in Decisions(r, Resolved(r, turns))
  {
    var c := Fresh(false).(attempted := true);
    var r, turns := Resumed(c, false, NotRebuilt), Learning(1, REPAIR_LIMIT, false);
    RecordedDecisions(c, turns);
    RecordedDecisions(r, turns);
    LearningWhileFailing(c, 1, REPAIR_LIMIT, false);
    LearningWithoutFailure(r, 1, REPAIR_LIMIT, false);
  }

  /** The saved build is confirmed, and with that the stall is cleared: the run that was about to stop goes on. */
  lemma AClearedStall()
    ensures var c := Fresh(true).(stall := Stall(4, Some(3)), attempted := true, passed := true);
            var r, turns := Resumed(c, true, Rebuilt(true, true, false)), Idling(5, 1);
            Decisions(c, Resolved(c, turns)) == [Stalled] && Decisions(r, Resolved(r, turns)) == [Continue(Go)]
  {
    var c := Fresh(true).(stall := Stall(4, Some(3)), attempted := true, passed := true);
    var r, turns := Resumed(c, true, Rebuilt(true, true, false)), Idling(5, 1);
    RecordedDecisions(c, turns);
    RecordedDecisions(r, turns);
    IdleHead(c, 5, 1);
    IdleHead(r, 5, 1);
    var d := Decisions(r, turns);
    assert d == [d[0]] + d[1..];
    d := Decisions(c, turns);
    assert d == [d[0]] + d[1..];
  }

  /** The draft was edited after its successful build and no longer compiles: only the resumed loop counts repair
      turns. */
  lemma ANewFailure()
    ensures var c := Fresh(true);
            var r, turns := Resumed(c, true, Rebuilt(true, false, true)), Learning(1, REPAIR_LIMIT, true);
            && RepairExhausted !in Decisions(c, Resolved(c, turns))
            && RepairExhausted in Decisions(r, Resolved(r, turns))
  {
    var c := Fresh(true);
    var r, turns := Resumed(c, true, Rebuilt(true, false, true)), Learning(1, REPAIR_LIMIT, true);
    RecordedDecisions(c, turns);
    RecordedDecisions(r, turns);
    LearningWithoutFailure(c, 1, REPAIR_LIMIT, true);
    LearningWhileFailing(r, 1, REPAIR_LIMIT, true);
  }

  /** The draft was edited after its successful build and compiles again: only the saved loop is judged by the
      controller, which takes no notice of reading. */
  lemma APassFoundAgain()
    ensures var c := Fresh(true).(progress := [7]);
            var r, turns := Resumed(c, true, Rebuilt(true, true, false)), Reading(8, 3);
            && Decisions(c, Resolved(c, turns)) == [Continue(Go), Continue(Warn), Continue(Reorient)]
            && Decisions(r, Resolved(r, turns)) == [Continue(Go), Continue(Go), Continue(Go)]
  {
    var c := Fresh(true).(progress := [7]);
    var r, turns := Resumed(c, true, Rebuilt(true, true, false)), Reading(8, 3);
    RecordedDecisions(c, turns);
    RecordedDecisions(r, turns);
    ReadingAfterPass(r, 8);
    ReadingUnpassed(c, 8);
  }

  /** A passed build that is not built again, because its trust was revoked, say: only the resumed loop is
      overridden. */
  lemma APassForgotten()
    ensures var c := Fresh(true).(attempted := true, passed := true, progress := [7]);
            var r, turns := Resumed(c, true, NotRebuilt), Reading(8, 3);
            && Decisions(c, Resolved(c, turns)) == [Continue(Go), Continue(Go), Continue(Go)]
            && Decisions(r, Resolved(r, turns)) == [Continue(Go), Continue(Warn), Continue(Reorient)]
  {
    var c := Fresh(true).(attempted := true, passed := true, progress := [7]);
    var r, turns := Resumed(c, true, NotRebuilt), Reading(8, 3);
    RecordedDecisions(c, turns);
    RecordedDecisions(r, turns);
    ReadingAfterPass(c, 8);
    ReadingUnpassed(r, 8);
  }

  lemma ReadingUnpassed(c: Control, from: int)
    requires c.structured && !c.passed && !Failing(c) && !c.material && c.stall == FRESH_STALL
    ensures Decisions(c, Reading(from, 3)) == [Continue(Go), Continue(Warn), Continue(Reorient)]
  {
    var c1 := ReadHead(c, from, 3);
    var c2 := ReadHead(c1, from + 1, 2);
    var c3 := ReadHead(c2, from + 2, 1);
    var d := Decisions(c, Reading(from, 3));
    assert d == [d[0]] + d[1..] && d[1..] == [d[1]] + d[1..][1..] && d[1..][1..] == [d[2]] + d[1..][1..][1..];
  }

  /** A rebuild that fails for the first time is news to the controller: the next idle turn counts as progress. */
  lemma ANotedRebuild()
    ensures var c := Fresh(true).(stall := Stall(1, None), attempted := true);
            var r, turns := Resumed(c, true, Rebuilt(true, false, true)), Idling(9, 1);
            Decisions(c, Resolved(c, turns)) == [Continue(Warn)] && Decisions(r, Resolved(r, turns)) == [Continue(Go)]
  {
    var c := Fresh(true).(stall := Stall(1, None), attempted := true);
    var r, turns := Resumed(c, true, Rebuilt(true, false, true)), Idling(9, 1);
    RecordedDecisions(c, turns);
    RecordedDecisions(r, turns);
    DecisionsHead(c, turns);
    DecisionsHead(r, turns);
    var d := Decisions(r, turns);
    assert d == [d[0]] + d[1..] && turns[1..] == [];
    d := Decisions(c, turns);
    assert d == [d[0]] + d[1..];
  }
}
