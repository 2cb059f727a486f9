/**
 * Settings under which a planned run is never disturbed: what can be read off the plan,
 * the workspaces and the limits, without looking at the states in between.
 */
module SafeSettings {
  import opened PlannerGraph
  import opened Scheduler
  import opened Batches
  import opened AdaptiveRuns
  import opened AdaptiveTraces
  import opened Stranding

  // ---- Workspaces stay with their agents ----

  ghost predicate SameDesks(a: Agents, b: Agents) {
    a.Keys == b.Keys && forall r :: r in a ==> a[r].workspace == b[r].workspace
  }

  lemma RoundKeepsDesks(tasks: seq<Task>, agents: Agents, maxConcurrency: nat, recovery: bool, to: Snapshot)
    requires RoundTo(tasks, agents, maxConcurrency, recovery, to)
    ensures SameDesks(agents, to.agents)
  {
    var batch :| Round(tasks, agents, maxConcurrency, to.tasks, to.agents, batch, recovery);
    AssignedAllHandsOut(tasks, agents, batch, |batch|, recovery);
  }

  lemma StepKeepsDesks(s: Snapshot, e: Event, maxConcurrency: nat, to: Snapshot)
    requires Step(s, e, maxConcurrency, to)
    ensures SameDesks(s.agents, to.agents)
  {
    match e
    case Dispatch => RoundKeepsDesks(s.tasks, s.agents, maxConcurrency, false, to);
    case Result(role) => RoundKeepsDesks(TasksAfterResult(s, role), Freed(s.agents, role), maxConcurrency, false, to);
    case Recovery => RoundKeepsDesks(Reset(s.tasks), Cleared(s.agents), maxConcurrency, true, to);
    case Release => RoundKeepsDesks(ReleasedTasks(s.tasks), Cleared(s.agents), maxConcurrency, true, to);
    case _ =>
  }

  /** A task that does not write, or whose participant has a workspace. */
  predicate HasDesk(agents: Agents, t: Task) {
    Writes(t) ==> WorkspaceOf(agents, t) != ""
  }

  lemma StepKeepsWritersPlaced(s: Snapshot, e: Event, maxConcurrency: nat, to: Snapshot)
    requires Step(s, e, maxConcurrency, to) && WritersPlaced(s.tasks, s.agents)
    requires e.Addition? ==> HasDesk(s.agents, e.task)
    ensures WritersPlaced(to.tasks, to.agents)
  {
    if RoundFrom(s, e).Some? {
      StepKeepsPlaced(s, e, maxConcurrency, to);
    } else if e.Addition? {
      AdditionKeepsPlaced(s, e.task);
    } else {
      HoldKeepsPlaced(s);
    }
  }

  lemma AdditionKeepsPlaced(s: Snapshot, t: Task)
    requires WritersPlaced(s.tasks, s.agents) && HasDesk(s.agents, t)
    ensures WritersPlaced(s.tasks + [t], s.agents)
  {
    forall i | 0 <= i < |s.tasks + [t]| && Writes((s.tasks + [t])[i])
      ensures WorkspaceOf(s.agents, (s.tasks + [t])[i]) != ""
    {
      assert i < |s.tasks| ==> (s.tasks + [t])[i] == s.tasks[i];
    }
  }

  lemma HoldKeepsPlaced(s: Snapshot)
    requires WritersPlaced(s.tasks, s.agents)
    ensures WritersPlaced(OnHoldTasks(s.tasks), s.agents)
  {
    forall i | 0 <= i < |s.tasks| && Writes(OnHoldTasks(s.tasks)[i])
      ensures WorkspaceOf(s.agents, OnHoldTasks(s.tasks)[i]) != ""
    {
      assert WorkspaceOf(s.agents, s.tasks[i]) != "";
    }
  }

  // ---- Whole executions under one slot ----

  /** Every limit in force is one slot, and every task added on the way has what it needs to write. */
  ghost predicate OneSlot(agents: Agents, events: seq<Occurrence>) {
    forall k :: 0 <= k < |events| ==>
      events[k].maxConcurrency <= 1 && (events[k].event.Addition? ==> HasDesk(agents, events[k].event.task))
  }

  lemma {:induction false} WritersStayPlaced(states: seq<Snapshot>, events: seq<Occurrence>, k: nat)
    requires Trace(states, events) && k <= |events| && OneSlot(states[0].agents, events)
    requires WritersPlaced(states[0].tasks, states[0].agents)
    ensures WritersPlaced(states[k].tasks, states[k].agents) && SameDesks(states[0].agents, states[k].agents)
  {
    if k > 0 {
      WritersStayPlaced(states, events, k - 1);
      NextStepKeepsPlaced(states, events, k - 1);
    }
  }

  lemma NextStepKeepsPlaced(states: seq<Snapshot>, events: seq<Occurrence>, k: nat)
    requires Trace(states, events) && k < |events| && OneSlot(states[0].agents, events)
    requires WritersPlaced(states[k].tasks, states[k].agents) && SameDesks(states[0].agents, states[k].agents)
    ensures WritersPlaced(states[k + 1].tasks, states[k + 1].agents) && SameDesks(states[0].agents, states[k + 1].agents)
  {
    var e, limit := events[k].event, events[k].maxConcurrency;
    StepKeepsWritersPlaced(states[k], e, limit, states[k + 1]);
    StepKeepsDesks(states[k], e, limit, states[k + 1]);
  }

  lemma OneSlotIsUndisturbed(states: seq<Snapshot>, events: seq<Occurrence>)
    requires Trace(states, events) && OneSlot(states[0].agents, events)
    requires WritersPlaced(states[0].tasks, states[0].agents)
    ensures Undisturbed(states, events)
  {
    forall k | 0 <= k < |events|
      ensures WritersPlaced(states[k].tasks, states[k].agents)
      ensures !Strands(states[k], events[k].event, events[k].maxConcurrency)
    {
      WritersStayPlaced(states, events, k);
      OneSlotStrandsNobody(states[k], events[k].event, events[k].maxConcurrency);
    }
  }

  /**
   * An accepted plan whose writers have workspaces, under a limit of one: through any
   * dispatches, results, additions, recoveries, holds and releases, some result frame
   * counts while the run executes, and the run is finished exactly when as many results
   * counted as it was given tasks.
   */
  lemma OneSlotFinishesAfterExactly(plan: seq<PlanTask>, agents: Agents, states: seq<Snapshot>, events: seq<Occurrence>)
    requires Launchable(plan, agents) && WritersPlaced(PlannedTasks(plan), agents)
    requires Trace(states, events) && states[0] == StartOf(plan, agents)
    requires events != [] && events[0].event == Dispatch && OneSlot(agents, events)
    ensures states[|events|].phase == Executing ==> SomeResultCounts(states[|events|])
    ensures states[|events|].phase == Finished <==> Results(events) == |plan| + Additions(events)
  {
    OneSlotIsUndisturbed(states, events);
    PlanFinishesAfterExactly(plan, agents, states, events);
  }
}
