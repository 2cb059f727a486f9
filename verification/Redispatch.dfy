/**
 * A lease issued on the coordinating device meets the gate on the device that runs
 * the task: whether a task that was paused can be dispatched again.
 */
module Redispatch {
  import opened Wrappers
  import opened Fencing
  import Scheduler
  import AdaptiveTraces
  import LeaseReuse

  /** The numbers a dispatch carries are those of the lease issued for it. */
  predicate Stamped(d: Dispatch, a: Scheduler.Agent) {
    d.attempt == Some(a.attempt) && d.fence == Some(a.fence)
  }

  /** Everything the device has seen for this assignment was issued under a lease up to this fence. */
  ghost predicate IssuedBy(log: seq<Event>, id: string, fence: nat) {
    && (forall i :: 0 <= i < |log| && NotedAt(log, i, id) ==> log[i].asked.fence <= fence)
    && (forall i :: 0 <= i < |log| && TookAt(log, i, id) && log[i].strict ==> log[i].fence <= fence)
  }

  /** A stop noted at this fence or above, for the run and role of the dispatch. */
  ghost predicate StoppedAt(log: seq<Event>, d: Dispatch, fence: nat) {
    exists i :: 0 <= i < |log| && NotedAt(log, i, d.id) && log[i].asked.fence == fence
      && log[i].asked.run == d.who.run && log[i].asked.role == d.who.role
  }

  lemma StopBlocksItsOwnLease(log: seq<Event>, assignments: map<string, Assignment>, cancellations: map<string, Cancellation>,
                              d: Dispatch, fence: nat)
    requires Explained(log, assignments, cancellations) && LockstepLog(log)
    requires d.attempt == Some(fence) && d.fence == Some(fence) && StoppedAt(log, d, fence)
    ensures Gate(assignments, cancellations, d) == Blocked
  {
    var i :| 0 <= i < |log| && NotedAt(log, i, d.id) && log[i].asked.fence == fence
      && log[i].asked.run == d.who.run && log[i].asked.role == d.who.role;
    assert log[i] in log;
    var c := cancellations[d.id];
    assert NotedNumbers(log, d.id, c);
    var e :| e in log && e.Noted? && e.id == d.id && e.asked.fence == c.fence && e.asked.attempt == c.attempt;
    var k :| 0 <= k < |log| && log[k] == e;
  }

  /**
   * After the pause of an agent's current lease has been noted, a new dispatch of a
   * task to that agent passes the gate exactly when it belongs to a recovery or the
   * paused lease was not the first dispatch of the same task.  The remaining case, a
   * task that a recovery reset without having a slot for it, is blocked for good.
   */
  lemma RedispatchPassesExactlyWhen(a: Scheduler.Agent, task: string, recovery: bool, log: seq<Event>,
                                    assignments: map<string, Assignment>, cancellations: map<string, Cancellation>, d: Dispatch)
    requires a.attempt == a.fence > 0 && Scheduler.RetryKeysPast(a)
    requires Stamped(d, Scheduler.Leased(a, Scheduler.DispatchKey(a, task, recovery)))
    requires Explained(log, assignments, cancellations) && LockstepLog(log)
    requires IssuedBy(log, d.id, a.fence) && StoppedAt(log, d, a.fence)
    requires d.fence.value > a.fence ==> Admissible(log, assignments, d)
    ensures Gate(assignments, cancellations, d).Accept? <==> recovery || a.leaseKey != Scheduler.LeaseKey(task, None)
  {
    if recovery {
      Scheduler.RecoveryDispatchIsFresh(a, task);
    } else {
      Scheduler.OrdinaryDispatchIsFresh(a, task);
    }
    if d.fence.value > a.fence {
      GateIsExact(log, assignments, cancellations, d);
    } else {
      StopBlocksItsOwnLease(log, assignments, cancellations, d, a.fence);
    }
  }

  /**
   * It happens: in a run of an accepted plan a task is dispatched again under the lease
   * it was paused at, and a device on which that pause was noted blocks the dispatch.
   */
  lemma ResetTaskIsBlocked(log: seq<Event>, assignments: map<string, Assignment>, cancellations: map<string, Cancellation>,
                           d: Dispatch)
    requires Explained(log, assignments, cancellations) && LockstepLog(log)
    requires Stamped(d, LeaseReuse.LAST.agents["q"]) && StoppedAt(log, d, LeaseReuse.HELD.agents["q"].fence)
    ensures AdaptiveTraces.Reaches(LeaseReuse.BEFORE, LeaseReuse.HELD) && AdaptiveTraces.Reaches(LeaseReuse.HELD, LeaseReuse.LAST)
    ensures LeaseReuse.LAST.tasks[1].state == Scheduler.Active && LeaseReuse.LAST.agents["q"].current == LeaseReuse.LAST.tasks[1].key
    ensures Gate(assignments, cancellations, d) == Blocked
  {
    LeaseReuse.InterruptedLeaseIsUsedAgain();
    StopBlocksItsOwnLease(log, assignments, cancellations, d, LeaseReuse.Q1.fence);
  }
}
