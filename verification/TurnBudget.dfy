/** How many turns a run may take: a limit, and from the planned number of turns on a test of recent progress every
    ten turns. */
module TurnBudget {
  import opened Common
  import opened StallControl

  const TURN_CEILING := 600
  const PROGRESS_SPAN := 5
  const TEST_INTERVAL := 10

  datatype Budget = Budget(maxTurns: nat, limit: nat)

  /** The budget of a run that resumes at turn `saved`, or starts with `saved == 0`. */
  function RunBudget(configured: int, saved: nat, extension: int, durable: bool): (b: Budget)
    ensures 1 <= b.maxTurns <= b.limit <= TURN_CEILING
  {
    var planned := configured + saved;
    var maxTurns := if planned < 1 then 1 else if planned > TURN_CEILING then TURN_CEILING else planned;
    var left := TURN_CEILING - maxTurns;
    Budget(maxTurns, maxTurns + if durable || extension >= left then left else if extension < 0 then 0 else extension)
  }

  /** The extension test: one of the turns with progress lies within the last five. */
  predicate RecentProgress(progress: seq<int>, turn: int) {
    exists i :: 0 <= i < |progress| && progress[i] >= turn - PROGRESS_SPAN
  }

  predicate Tested(maxTurns: nat, turn: int) { turn > maxTurns && (turn - maxTurns - 1) % TEST_INTERVAL == 0 }

  /** Whether a run goes on into this turn. */
  predicate Admits(b: Budget, progress: seq<int>, turn: int) {
    turn <= b.limit && (Tested(b.maxTurns, turn) ==> RecentProgress(progress, turn))
  }

  /** Every turn of the run passed the limit and the test, with the progress made before it. */
  ghost predicate WithinBudget(b: Budget, start: Control, turns: seq<Turn>) {
    forall i :: 0 <= i < |turns| ==> Admits(b, After(start, turns[..i]).progress, turns[i].turn)
  }

  lemma OneMoreAdmitted(b: Budget, start: Control, turns: seq<Turn>, t: Turn)
    requires WithinBudget(b, start, turns) && Admits(b, After(start, turns).progress, t.turn)
    ensures WithinBudget(b, start, turns + [t])
  {
    forall i | 0 <= i <= |turns| ensures Admits(b, After(start, (turns + [t])[..i]).progress, (turns + [t])[i].turn) {
      assert (turns + [t])[..i] == turns[..i];
      assert turns[..|turns|] == turns;
    }
  }

  // ---------------------------------------------------------------- what is saved of the progress

  /** Lists of progress turns that no later test can tell apart. */
  predicate SameLast(a: seq<int>, b: seq<int>) {
    (a == [] <==> b == []) && (a != [] ==> a[|a| - 1] == b[|b| - 1])
  }

  lemma LastProgressDecides(progress: seq<int>, turn: int)
    requires Nondecreasing(progress)
    ensures RecentProgress(progress, turn) <==> progress != [] && progress[|progress| - 1] >= turn - PROGRESS_SPAN
  {
  }

  /** Keeping only the last ten progress turns never changes the extension test. */
  lemma SavedProgressSuffices(progress: seq<int>, turn: int)
    requires Nondecreasing(progress)
    ensures RecentProgress(Tail(progress, SAVED_PROGRESS), turn) <==> RecentProgress(progress, turn)
  {
    LastProgressDecides(progress, turn);
    LastProgressDecides(Tail(progress, SAVED_PROGRESS), turn);
  }

  /** Nor does it change a test at any later turn, whatever progress the turns in between make. */
  lemma {:induction false} SavedProgressKeepsDeciding(c: Control, r: Control, turns: seq<Turn>, turn: int)
    requires Onward(c, turns) && r.progress == Tail(c.progress, SAVED_PROGRESS)
    requires AllContinue(c, turns) && AllContinue(r, turns)
    ensures RecentProgress(After(r, turns).progress, turn) <==> RecentProgress(After(c, turns).progress, turn)
  {
    ProgressStaysAlike(c, r, turns);
    LastProgressDecides(After(c, turns).progress, turn);
    LastProgressDecides(After(r, turns).progress, turn);
  }

  lemma {:induction false} ProgressStaysAlike(a: Control, b: Control, turns: seq<Turn>)
    requires SameLast(a.progress, b.progress) && Onward(a, turns) && Onward(b, turns)
    requires AllContinue(a, turns) && AllContinue(b, turns)
    ensures var p, q := After(a, turns).progress, After(b, turns).progress;
            && SameLast(p, q) && Nondecreasing(p) && Nondecreasing(q)
            && (turns != [] ==> UpTo(p, turns[|turns| - 1].turn) && UpTo(q, turns[|turns| - 1].turn))
  {
    if turns != [] {
      var n := |turns| - 1;
      InitContinues(a, turns);
      InitContinues(b, turns);
      ProgressStaysAlike(a, b, turns[..n]);
      assert DecisionAt(a, turns, n).Continue? && DecisionAt(b, turns, n).Continue?;
      StepStaysUpTo(After(a, turns[..n]), turns[n]);
      StepStaysUpTo(After(b, turns[..n]), turns[n]);
      ProgressOfTurn(After(a, turns[..n]), turns[n]);
      ProgressOfTurn(After(b, turns[..n]), turns[n]);
    }
  }

  lemma ProgressOfTurn(c: Control, t: Turn)
    requires Settle(c, t).1.Continue?
    ensures Settle(c, t).0.progress == if t.progressed then c.progress + [t.turn] else c.progress
  {
  }

  // ---------------------------------------------------------------- when two budgets agree

  /** The first test after turn `saved`. */
  function FirstTest(b: Budget, saved: int): int {
    if saved <= b.maxTurns then b.maxTurns + 1 else saved + 1 + (b.maxTurns - saved) % TEST_INTERVAL
  }

  lemma TestsRecur(b: Budget, saved: int, turn: int)
    requires turn > saved
    ensures FirstTest(b, saved) > saved
    ensures Tested(b.maxTurns, turn)
            <==> turn >= FirstTest(b, saved) && (turn - FirstTest(b, saved)) % TEST_INTERVAL == 0
  {
    var first := FirstTest(b, saved);
    var k := (first - b.maxTurns - 1) / TEST_INTERVAL;
    FirstTestIsTested(b, saved);
    assert first - b.maxTurns - 1 == TEST_INTERVAL * k;
    SameRemainder(turn - first, first - b.maxTurns - 1, k);
    if Tested(b.maxTurns, turn) && turn < first {
      NoTestBefore(b, saved, turn);
    }
  }

  lemma FirstTestIsTested(b: Budget, saved: int)
    ensures FirstTest(b, saved) > saved && Tested(b.maxTurns, FirstTest(b, saved))
    ensures FirstTest(b, saved) <= b.maxTurns + 1 || FirstTest(b, saved) <= saved + TEST_INTERVAL
  {
    if saved > b.maxTurns {
      var d := b.maxTurns - saved;
      assert d == TEST_INTERVAL * (d / TEST_INTERVAL) + d % TEST_INTERVAL;
      SameRemainder(0, d % TEST_INTERVAL - d, -(d / TEST_INTERVAL));
    }
  }

  lemma NoTestBefore(b: Budget, saved: int, turn: int)
    requires saved < turn < FirstTest(b, saved)
    ensures !Tested(b.maxTurns, turn)
  {
    if saved > b.maxTurns {
      var d := b.maxTurns - saved;
      var r := d % TEST_INTERVAL;
      assert d == TEST_INTERVAL * (d / TEST_INTERVAL) + r;
      var e := turn - saved - 1 - r;
      assert turn - b.maxTurns - 1 == e + (r - d);
      SameRemainder(e, r - d, -(d / TEST_INTERVAL));
    }
  }

  lemma SameRemainder(x: int, y: int, k: int)
    requires y == TEST_INTERVAL * k
    ensures (x + y) % TEST_INTERVAL == x % TEST_INTERVAL
  {
  }

  /** Later turns are limited and tested alike: the limits agree, or both are behind, and so do the first later
      tests. */
  predicate SameBudget(a: Budget, b: Budget, saved: nat) {
    && (a.limit == b.limit || (a.limit <= saved && b.limit <= saved))
    && (FirstTest(a, saved) == FirstTest(b, saved) || (FirstTest(a, saved) > a.limit && FirstTest(b, saved) > b.limit))
  }

  /** Two budgets admit the same later turns, whatever the progress, exactly under that condition. */
  lemma BudgetsAgreeIff(a: Budget, b: Budget, saved: nat)
    ensures SameBudget(a, b, saved) <==>
              forall progress: seq<int>, turn: int :: turn > saved ==>
                Admits(a, progress, turn) == Admits(b, progress, turn)
  {
    FirstTestIsTested(a, saved);
    FirstTestIsTested(b, saved);
    if SameBudget(a, b, saved) {
      forall progress: seq<int>, turn: int | turn > saved
        ensures Admits(a, progress, turn) == Admits(b, progress, turn)
      {
        TestsRecur(a, saved, turn);
        TestsRecur(b, saved, turn);
      }
    } else {
      var progress, turn := BudgetsDiffer(a, b, saved);
      assert Admits(a, progress, turn) != Admits(b, progress, turn);
    }
  }

  lemma BudgetsDiffer(a: Budget, b: Budget, saved: nat) returns (progress: seq<int>, turn: int)
    requires !SameBudget(a, b, saved)
    ensures turn > saved && Admits(a, progress, turn) != Admits(b, progress, turn)
  {
    if a.limit != b.limit && !(a.limit <= saved && b.limit <= saved) {
      turn := if a.limit > b.limit then a.limit else b.limit;
      progress := [turn];
      assert progress[0] >= turn - PROGRESS_SPAN;
    } else {
      progress := [];
      turn := if FirstTest(a, saved) <= FirstTest(b, saved) then FirstTest(a, saved) else FirstTest(b, saved);
      TestsRecur(a, saved, turn);
      TestsRecur(b, saved, turn);
      FirstTestIsTested(a, saved);
      FirstTestIsTested(b, saved);
    }
  }

  /** Resuming adds the saved turn to the planned ones: before these are used up, that always changes what is
      admitted. */
  lemma ResumingMovesTheBudget(configured: int, extension: int, durable: bool, from: nat, saved: nat)
    requires configured >= 1 && from < saved <= RunBudget(configured, from, extension, durable).maxTurns < TURN_CEILING
    ensures !SameBudget(RunBudget(configured, from, extension, durable),
                        RunBudget(configured, saved, extension, durable), saved)
  {
  }

  /** Forty planned turns, saved at turn 38, last progress at turn 30: the run would end before turn 41, and goes on. */
  lemma ARaisedBudget(extension: int, durable: bool)
    ensures !Admits(RunBudget(40, 0, extension, durable), [30], 41)
    ensures Admits(RunBudget(40, 38, extension, durable), [30], 41)
  {
  }
}
