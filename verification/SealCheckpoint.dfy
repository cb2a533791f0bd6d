/** Sealing a checkpoint in a worker thread while the calling task may be cancelled at any moment. */
module SealCheckpoint {

  /** What happens next: a thread advances, the task is cancelled, or the event loop resumes the task. */
  datatype Event = Advance | Cancel | Wake

  /** The faults of one run: which file operations fail when they are reached. */
  datatype Faults = Faults(create: bool, copy: bool, inspect: bool, remove: bool)

  /** The worker thread; `Discarding` is the removal after a failure. */
  datatype Worker = Creating | Copying | Inspecting | Discarding | Sealed | Broken

  /** The clean-up thread of a cancelled call. */
  datatype Cleanup = Idle | Removing | Removed | RemovalFailed

  /** `Waiting` is a call that the events seen so far have not ended. */
  datatype Outcome = Waiting | Returned | Raised | CallCancelled

  datatype Woken = Settled | Interrupted | Starved

  predicate WorkerDone(w: Worker) { w.Sealed? || w.Broken? }

  predicate CleanupDone(c: Cleanup) { c.Removed? || c.RemovalFailed? }

  function Cancels(events: seq<Event>): (n: nat) {
    if events == [] then 0 else Cancels(events[..|events| - 1]) + if events[|events| - 1].Cancel? then 1 else 0
  }

  lemma {:induction false} CancelsGrow(events: seq<Event>, i: nat, j: nat)
    requires i <= j <= |events|
    ensures Cancels(events[..i]) <= Cancels(events[..j])
    decreases j
  {
    if i < j {
      assert events[..j][..j - 1] == events[..j - 1];
      CancelsGrow(events, i, j - 1);
    }
  }

  class Sealing {
    const faults: Faults
    const schedule: seq<Event>
    var next: nat
    var worker: Worker
    var cleanup: Cleanup
    var snapshotExists: bool

    constructor (faults: Faults, schedule: seq<Event>)
      ensures this.faults == faults && this.schedule == schedule
      ensures next == 0 && worker == Creating && cleanup == Idle && !snapshotExists
    {
      this.faults, this.schedule := faults, schedule;
      next, worker, cleanup, snapshotExists := 0, Creating, Idle, false;
    }

    /** While the worker lives it owns the snapshot; a removal that succeeded leaves none. */
    ghost predicate Valid()
      reads this
    {
      && next <= |schedule|
      && (worker.Creating? ==> !snapshotExists)
      && (worker.Copying? || worker.Inspecting? || worker.Discarding? ==> snapshotExists)
      && (worker.Broken? && !faults.remove ==> !snapshotExists)
      && (worker.Sealed? ==> (snapshotExists <==> !cleanup.Removed?))
      && (!cleanup.Idle? ==> worker.Sealed?)
      && (cleanup.RemovalFailed? ==> faults.remove)
    }

    /** One step of the worker thread. */
    method AdvanceWorker()
      requires Valid() && !WorkerDone(worker)
      modifies this`worker, this`snapshotExists
      ensures Valid()
    {
      match worker
      case Creating =>
        if faults.create { worker := Broken; } else { worker, snapshotExists := Copying, true; }
      case Copying => worker := if faults.copy then Discarding else Inspecting;
      case Inspecting => worker := if faults.inspect then Discarding else Sealed;
      case Discarding =>
        worker, snapshotExists := Broken, faults.remove;
    }

    /** One step of the clean-up thread. */
    method AdvanceCleanup()
      requires Valid() && cleanup.Removing?
      modifies this`cleanup, this`snapshotExists
      ensures Valid() && CleanupDone(cleanup)
    {
      cleanup, snapshotExists := if faults.remove then RemovalFailed else Removed, faults.remove;
    }

    /** `await shield(worker)`: a finished worker answers at once; otherwise a cancellation may come first, even after
        it finished. */
    method AwaitWorker() returns (woken: Woken)
      requires Valid()
      modifies this`next, this`worker, this`snapshotExists
      ensures Valid() && next >= old(next)
      ensures old(WorkerDone(worker)) ==> woken.Settled? && worker == old(worker) && next == old(next)
      ensures woken.Settled? ==> WorkerDone(worker) && Cancels(schedule[..next]) == old(Cancels(schedule[..next]))
      ensures woken.Interrupted? ==> next > old(next) && Cancels(schedule[..next]) == old(Cancels(schedule[..next])) + 1
      ensures woken.Starved? ==> next == |schedule| && Cancels(schedule[..next]) == old(Cancels(schedule[..next]))
    {
      if WorkerDone(worker) {
        return Settled;
      }
      while next < |schedule|
        invariant Valid() && old(next) <= next && Cancels(schedule[..next]) == old(Cancels(schedule[..next]))
        decreases |schedule| - next
      {
        var event := schedule[next];
        assert schedule[..next + 1][..next] == schedule[..next];
        next := next + 1;
        if event.Cancel? {
          return Interrupted;
        }
        if event.Advance? && !WorkerDone(worker) {
          AdvanceWorker();
        } else if event.Wake? && WorkerDone(worker) {
          return Settled;
        }
      }
      woken := Starved;
    }

    /** `await shield(cleanup)`, in the same manner; the worker is finished by then. */
    method AwaitCleanup() returns (woken: Woken)
      requires Valid() && !cleanup.Idle?
      modifies this`next, this`cleanup, this`snapshotExists
      ensures Valid() && !cleanup.Idle? && next >= old(next)
      ensures woken.Settled? ==> CleanupDone(cleanup)
      ensures woken.Interrupted? ==> next > old(next)
      ensures woken.Starved? ==> next == |schedule|
    {
      if CleanupDone(cleanup) {
        return Settled;
      }
      while next < |schedule|
        invariant Valid() && !cleanup.Idle? && old(next) <= next
        decreases |schedule| - next
      {
        var event := schedule[next];
        next := next + 1;
        if event.Cancel? {
          return Interrupted;
        }
        if event.Advance? && cleanup.Removing? {
          AdvanceCleanup();
        } else if event.Wake? && CleanupDone(cleanup) {
          return Settled;
        }
      }
      woken := Starved;
    }

    /** The call ends only once both threads have; if removal works, the snapshot remains exactly after a normal
        return. */
    method Seal() returns (outcome: Outcome)
      requires Valid() && next == 0 && worker == Creating && cleanup == Idle
      modifies this
      ensures Valid()
      ensures outcome.Waiting? ==> next == |schedule|
      ensures !outcome.Waiting? ==> WorkerDone(worker) && (cleanup.Idle? || CleanupDone(cleanup))
      ensures outcome.Returned? ==> worker.Sealed? && cleanup.Idle? && snapshotExists
      ensures !faults.remove && !outcome.Waiting? ==> (snapshotExists <==> outcome.Returned?)
      ensures outcome.Returned? || outcome.Raised? ==> Cancels(schedule[..next]) == 0 || cleanup.RemovalFailed?
      ensures outcome.CallCancelled? ==> Cancels(schedule[..next]) > 0 && !cleanup.RemovalFailed?
    {
      var cancelled := false;
      while true
        invariant Valid() && cleanup == Idle
        invariant cancelled <==> Cancels(schedule[..next]) > 0
        decreases |schedule| - next
      {
        var woken := AwaitWorker();
        match woken
        case Starved => return Waiting;
        case Interrupted => cancelled := true;
        case Settled =>
          if worker.Broken? {
            return if cancelled then CallCancelled else Raised;
          }
          break;
      }
      if !cancelled {
        return Returned;
      }
      cleanup := Removing;
      while !CleanupDone(cleanup)
        invariant Valid() && worker.Sealed? && !cleanup.Idle?
        invariant Cancels(schedule[..next]) > 0
        decreases |schedule| - next, if CleanupDone(cleanup) then 0 else 1
      {
        ghost var before := next;
        var woken := AwaitCleanup();
        CancelsGrow(schedule, before, next);
        if woken.Starved? {
          return Waiting;
        }
      }
      outcome := if cleanup.RemovalFailed? then Raised else CallCancelled;
    }
  }
}
