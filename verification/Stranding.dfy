/**
 * What becomes of a task that is active while its agent works on something else, and
 * which runs can be finished without a recovery or a hold.
 */
module Stranding {
  import opened PlannerGraph
  import opened Scheduler
  import opened Batches
  import opened AdaptiveRuns
  import opened AdaptiveTraces

  // ---- A stranded task ----

  /** Task i is active, and its agent is free or works on another task. */
  ghost predicate Stranded(s: Snapshot, i: nat) {
    && i < |s.tasks| && s.tasks[i].state == Active && s.tasks[i].participant in s.agents
    && s.agents[s.tasks[i].participant].current != s.tasks[i].key
  }

  /** No result frame with this key counts. */
  ghost predicate ResultsIgnored(s: Snapshot, key: string) {
    forall role, attempt, fence :: !AcceptsResult(s, role, key, attempt, fence)
  }

  lemma StrandedResultsIgnored(s: Snapshot, i: nat)
    requires Sound(s) && s.phase == Executing && Stranded(s, i)
    ensures ResultsIgnored(s, s.tasks[i].key)
  {
    var order :| RunFits(s.tasks, s.agents, order, s.phase);
    var key := s.tasks[i].key;
    forall role | role in s.agents ensures s.agents[role].current != key {
      if s.agents[role].current == key {
        AgentWorksOnActiveTask(s.tasks, s.agents, role);
        KeyIsAt(s.tasks, i);
      }
    }
  }

  lemma KeyIsAt(tasks: seq<Task>, i: nat)
    requires DistinctKeys(tasks) && i < |tasks|
    ensures IndexOf(tasks, tasks[i].key).Some? && IndexOf(tasks, tasks[i].key).value == i
  {
  }

  /** A legal batch starts nobody who is busy. */
  lemma BusyIsNotStarted(tasks: seq<Task>, agents: Agents, batch: seq<nat>, i: nat)
    requires SafeBatch(tasks, agents, batch) && i < |tasks| && tasks[i].state == Active
    ensures i !in batch && forall a :: 0 <= a < |batch| ==> tasks[batch[a]].participant != tasks[i].participant
  {
    assert Busy(tasks, tasks[i].participant);
    forall a | 0 <= a < |batch| ensures tasks[batch[a]].participant != tasks[i].participant {
      assert Eligible(tasks, batch[a]);
    }
  }

  lemma RoundKeepsStranded(tasks: seq<Task>, agents: Agents, maxConcurrency: nat, recovery: bool, to: Snapshot, i: nat)
    requires RoundTo(tasks, agents, maxConcurrency, recovery, to) && Stranded(Snapshot(tasks, agents, Executing), i)
    ensures to.phase == Executing && Stranded(to, i) && to.tasks[i].key == tasks[i].key
  {
    var batch :| Round(tasks, agents, maxConcurrency, to.tasks, to.agents, batch, recovery);
    BusyIsNotStarted(tasks, agents, batch, i);
    AssignedAllHandsOut(tasks, agents, batch, |batch|, recovery);
    assert to.tasks[i].(state := tasks[i].state) == tasks[i];
    assert batch[..|batch|] == batch;
  }

  lemma ResultKeepsStranded(s: Snapshot, role: string, i: nat)
    requires Sound(s) && CanResult(s, role) && Stranded(s, i)
    ensures var after := Snapshot(TasksAfterResult(s, role), Freed(s.agents, role), Executing);
      Stranded(after, i) && after.tasks[i].key == s.tasks[i].key
  {
    var order :| RunFits(s.tasks, s.agents, order, s.phase);
    AgentWorksOnActiveTask(s.tasks, s.agents, role);
  }

  predicate Ordinary(e: Event) {
    e.Dispatch? || e.Result? || e.Addition?
  }

  /** Dispatches, results and additions leave a stranded task stranded, and the run unfinished. */
  lemma StrandedStays(s: Snapshot, e: Event, maxConcurrency: nat, to: Snapshot, i: nat)
    requires Sound(s) && s.phase == Executing && Stranded(s, i)
    requires Ordinary(e) && Step(s, e, maxConcurrency, to)
    ensures to.phase == Executing && Stranded(to, i) && to.tasks[i].key == s.tasks[i].key
  {
    match e
    case Dispatch => RoundKeepsStranded(s.tasks, s.agents, maxConcurrency, false, to, i);
    case Result(role) =>
      ResultKeepsStranded(s, role, i);
      RoundKeepsStranded(TasksAfterResult(s, role), Freed(s.agents, role), maxConcurrency, false, to, i);
    case Addition(t) =>
    case _ =>
  }

  ghost predicate OrdinaryTrace(states: seq<Snapshot>, events: seq<Occurrence>) {
    Trace(states, events) && forall k :: 0 <= k < |events| ==> Ordinary(events[k].event)
  }

  /**
   * Once a task is stranded, no dispatches, results and additions in any number and
   * order finish the run, and no result for that task is ever accepted.
   */
  lemma {:induction false} StrandedForGood(states: seq<Snapshot>, events: seq<Occurrence>, i: nat)
    requires OrdinaryTrace(states, events) && Sound(states[0]) && states[0].phase == Executing && Stranded(states[0], i)
    ensures var last := states[|events|];
      && Sound(last) && last.phase == Executing && Stranded(last, i)
      && last.tasks[i].key == states[0].tasks[i].key && ResultsIgnored(last, states[0].tasks[i].key)
    decreases |events|
  {
    if events != [] {
      var n := |events| - 1;
      var before, earlier := states[..n + 1], events[..n];
      assert OrdinaryTrace(before, earlier);
      StrandedForGood(before, earlier, i);
      assert before[n] == states[n];
      StepCounts(states[n], events[n].event, events[n].maxConcurrency, states[n + 1]);
      StrandedStays(states[n], events[n].event, events[n].maxConcurrency, states[n + 1], i);
    }
    StrandedResultsIgnored(states[|events|], i);
  }

  // ---- Which runs can be finished that way ----

  ghost predicate OrdinaryFinish(s: Snapshot, states: seq<Snapshot>, events: seq<Occurrence>) {
    OrdinaryTrace(states, events) && states[0] == s && states[|events|].phase == Finished
  }

  ghost predicate CanFinish(s: Snapshot) {
    exists states, events :: OrdinaryFinish(s, states, events)
  }

  lemma StepThenFinish(s: Snapshot, e: Event, maxConcurrency: nat, to: Snapshot)
    requires Step(s, e, maxConcurrency, to) && Ordinary(e) && CanFinish(to)
    ensures CanFinish(s)
  {
    var later, more :| OrdinaryFinish(to, later, more);
    StepBefore(s, e, maxConcurrency, later, more);
    assert OrdinaryFinish(s, [s] + later, [Occurrence(e, maxConcurrency)] + more);
  }

  /** With one slot no round gives anybody two tasks. */
  lemma OneSlotStrandsNobody(s: Snapshot, e: Event, maxConcurrency: nat)
    requires maxConcurrency <= 1
    ensures !Strands(s, e, maxConcurrency)
  {
    if RoundFrom(s, e).Some? {
      var from := RoundFrom(s, e).value;
      NoTwoForOne(from.0, from.1, Capacity(from.0, maxConcurrency));
    }
  }

  lemma OneSlotDispatch(s: Snapshot) returns (to: Snapshot)
    requires Sound(s) && s.phase == Executing && Served(s.tasks, s.agents) && WritersPlaced(s.tasks, s.agents)
    ensures Step(s, Dispatch, 1, to) && Sound(to) && Unfinished(to.tasks) == Unfinished(s.tasks)
    ensures to.phase == Executing && Live(to) && WritersPlaced(to.tasks, to.agents)
  {
    to := NextDispatch(s, 1);
    OneSlotStrandsNobody(s, Dispatch, 1);
    ServedExactlyWhenNotStranded(s, Dispatch, 1, to);
    EventIsActive(s, Dispatch, 1, to);
    RoundKeepsPlaced(s.tasks, s.agents, 1, false, to);
  }

  lemma OneSlotResult(s: Snapshot, role: string) returns (to: Snapshot)
    requires Sound(s) && CanResult(s, role) && Served(s.tasks, s.agents) && WritersPlaced(s.tasks, s.agents)
    ensures Step(s, Result(role), 1, to) && Sound(to) && Unfinished(to.tasks) < Unfinished(s.tasks)
    ensures to.phase != OnHold && Served(to.tasks, to.agents) && WritersPlaced(to.tasks, to.agents)
  {
    to := NextResult(s, 1, role);
    OneSlotStrandsNobody(s, Result(role), 1);
    ServedExactlyWhenNotStranded(s, Result(role), 1, to);
    ResultStepKeepsPlaced(s, role, 1, to);
  }

  lemma {:induction false} ServedCanFinish(s: Snapshot)
    requires Sound(s) && s.phase != OnHold && Served(s.tasks, s.agents) && WritersPlaced(s.tasks, s.agents)
    ensures CanFinish(s)
    decreases Unfinished(s.tasks)
  {
    if s.phase == Finished {
      assert OrdinaryFinish(s, [s], []);
    } else {
      var dispatched := OneSlotDispatch(s);
      LiveCounts(dispatched);
      var role :| CanResult(dispatched, role);
      var next := OneSlotResult(dispatched, role);
      ServedCanFinish(next);
      StepThenFinish(dispatched, Result(role), 1, next);
      StepThenFinish(s, Dispatch, 1, dispatched);
    }
  }

  lemma UnservedCannotFinish(s: Snapshot)
    requires Sound(s) && s.phase == Executing && !Served(s.tasks, s.agents)
    ensures !CanFinish(s)
  {
    var i :| 0 <= i < |s.tasks| && s.tasks[i].state == Active && s.tasks[i].participant in s.agents
      && s.agents[s.tasks[i].participant].current != s.tasks[i].key;
    forall states: seq<Snapshot>, events | OrdinaryTrace(states, events) && states[0] == s
      ensures states[|events|].phase == Executing {
      StrandedForGood(states, events, i);
    }
  }

  /**
   * An executing run whose writers have workspaces can be brought to its end by
   * dispatches, results and additions exactly when every active task is the current
   * task of its agent.
   */
  lemma CanFinishExactlyWhenServed(s: Snapshot)
    requires Sound(s) && s.phase == Executing && WritersPlaced(s.tasks, s.agents)
    ensures CanFinish(s) <==> Served(s.tasks, s.agents)
  {
    if Served(s.tasks, s.agents) {
      ServedCanFinish(s);
    } else {
      UnservedCannotFinish(s);
    }
  }

  lemma StepKeepsPlaced(s: Snapshot, e: Event, maxConcurrency: nat, to: Snapshot)
    requires Step(s, e, maxConcurrency, to) && RoundFrom(s, e).Some? && WritersPlaced(s.tasks, s.agents)
    ensures WritersPlaced(to.tasks, to.agents)
  {
    var from := RoundFrom(s, e).value;
    match e
    case Dispatch => RoundKeepsPlaced(from.0, from.1, maxConcurrency, false, to);
    case Result(role) => ResultStepKeepsPlaced(s, role, maxConcurrency, to);
    case Recovery =>
      MovedKeepsPlaced(s.tasks, s.agents, INTERRUPTED, Pending);
      RoundKeepsPlaced(from.0, from.1, maxConcurrency, true, to);
    case _ =>
      MovedKeepsPlaced(s.tasks, s.agents, {Stopped}, Pending);
      RoundKeepsPlaced(from.0, from.1, maxConcurrency, true, to);
  }

  /**
   * After the round of a dispatch, a result, a recovery or a release, dispatches and
   * results can still finish the run exactly when the round gave nobody two tasks:
   * when no two free tasks of one participant were within its first free slots.
   */
  lemma RoundCanFinishExactlyWhen(s: Snapshot, e: Event, maxConcurrency: nat, to: Snapshot)
    requires Sound(s) && Step(s, e, maxConcurrency, to) && RoundFrom(s, e).Some? && to.phase == Executing
    requires WritersPlaced(s.tasks, s.agents) && ((e.Dispatch? || e.Result?) ==> Served(s.tasks, s.agents))
    ensures CanFinish(to) <==> !Strands(s, e, maxConcurrency)
  {
    ServedExactlyWhenNotStranded(s, e, maxConcurrency, to);
    StepKeepsPlaced(s, e, maxConcurrency, to);
    StepCounts(s, e, maxConcurrency, to);
    CanFinishExactlyWhenServed(to);
  }

  // ---- A run in which it happens ----

  /** Two independent read-only tasks. */
  function TwoTasks(second: string): seq<PlanTask> {
    [PlanTask("a", "p", ReadOnly, []), PlanTask("b", second, ReadOnly, [])]
  }

  const NEW_AGENT: Agent := Agent("", 0, 0, NoKey, "")

  const TEAM: Agents := map["p" := NEW_AGENT]

  const TWO_TASKS_GRAPH: Graph := map["a" := [], "b" := []]

  lemma TwoTasksAreOrdered()
    ensures CompleteOrder(TWO_TASKS_GRAPH, ["a", "b"])
  {
  }

  lemma TwoTasksAreAGraph(second: string)
    ensures DistinctIds(TwoTasks(second)) && Known(TwoTasks(second)) && GraphOf(TwoTasks(second), TWO_TASKS_GRAPH)
  {
    assert TwoTasks(second)[0].id == "a" && TwoTasks(second)[1].id == "b";
  }

  lemma OrderedPlanIsRunnable(plan: seq<PlanTask>, g: Graph, order: seq<string>)
    requires DistinctIds(plan) && Known(plan) && GraphOf(plan, g) && CompleteOrder(g, order)
    ensures Runnable(plan)
  {
  }

  lemma TwoTasksAreAPlan(second: string)
    ensures Runnable(TwoTasks(second))
  {
    TwoTasksAreAGraph(second);
    TwoTasksAreOrdered();
    OrderedPlanIsRunnable(TwoTasks(second), TWO_TASKS_GRAPH, ["a", "b"]);
  }

  lemma OneParticipantIsATeam()
    ensures Launchable(TwoTasks("p"), TEAM)
  {
    TwoTasksAreAPlan("p");
    assert TwoTasks("p")[0].participant == "p" && TwoTasks("p")[1].participant == "p";
  }

  lemma TwoTasksAreTwoForOne()
    ensures TwoForOne(PlannedTasks(TwoTasks("p")), TEAM, Capacity(PlannedTasks(TwoTasks("p")), 2))
  {
    var tasks := PlannedTasks(TwoTasks("p"));
    assert tasks[0].participant == tasks[1].participant;
    assert Capacity(tasks, 2) == 2;
    assert Free(tasks, TEAM, 0) && Free(tasks, TEAM, 1);
    FreePlace(tasks, TEAM, 0, 1);
    assert FreeBefore(tasks, TEAM, 1) == FreeBefore(tasks, TEAM, 0) + [0];
  }

  /** Some active task can no longer be completed. */
  ghost predicate Stuck(s: Snapshot) {
    exists i: nat :: Stranded(s, i) && ResultsIgnored(s, s.tasks[i].key)
  }

  lemma UnservedIsStuck(s: Snapshot)
    requires Sound(s) && s.phase == Executing && !Served(s.tasks, s.agents)
    ensures Stuck(s) && !CanFinish(s)
  {
    UnservedCannotFinish(s);
    var i :| 0 <= i < |s.tasks| && s.tasks[i].state == Active && s.tasks[i].participant in s.agents
      && s.agents[s.tasks[i].participant].current != s.tasks[i].key;
    StrandedResultsIgnored(s, i);
  }

  lemma TwoForOneGetsStuck(plan: seq<PlanTask>, agents: Agents, maxConcurrency: nat) returns (to: Snapshot)
    requires Launchable(plan, agents)
    requires TwoForOne(PlannedTasks(plan), agents, Capacity(PlannedTasks(plan), maxConcurrency))
    ensures Step(StartOf(plan, agents), Dispatch, maxConcurrency, to) && Stuck(to) && !CanFinish(to)
  {
    var s := StartOf(plan, agents);
    StartIsSound(plan, agents);
    to := NextDispatch(s, maxConcurrency);
    ServedExactlyWhenNotStranded(s, Dispatch, maxConcurrency, to);
    UnservedIsStuck(to);
  }

  /**
   * Two independent tasks of one participant are an accepted plan; one dispatch with
   * two slots starts both, and the run cannot finish any more.
   */
  lemma AcceptedPlanGetsStuck() returns (to: Snapshot)
    ensures Launchable(TwoTasks("p"), TEAM)
    ensures Step(StartOf(TwoTasks("p"), TEAM), Dispatch, 2, to) && Stuck(to) && !CanFinish(to)
  {
    OneParticipantIsATeam();
    TwoTasksAreTwoForOne();
    to := TwoForOneGetsStuck(TwoTasks("p"), TEAM, 2);
  }
}
