/**
 * A run in which a task is dispatched again under the lease it was interrupted at: a
 * release whose round has no slot left for the task, and a later ordinary dispatch.
 */
module LeaseReuse {
  import opened PlannerGraph
  import opened Wrappers
  import opened Scheduler
  import opened Batches
  import opened AdaptiveRuns
  import opened AdaptiveTraces
  import opened Stranding

  // ---- Rounds over two independent read-only tasks ----

  function Pair(a: TaskState, b: TaskState): seq<Task> {
    [Task("a", "p", ReadOnly, [], a), Task("b", "q", ReadOnly, [], b)]
  }

  function Team(p: Agent, q: Agent): Agents {
    map["p" := p, "q" := q]
  }

  lemma PairIsFree(a: TaskState, b: TaskState, agents: Agents)
    ensures Free(Pair(a, b), agents, 0) <==> a == Pending
    ensures Free(Pair(a, b), agents, 1) <==> b == Pending
  {
    var tasks := Pair(a, b);
    assert tasks[0].participant == "p" && tasks[1].participant == "q";
  }

  lemma FirstFreeOfPair(a: TaskState, b: TaskState, agents: Agents, capacity: nat)
    ensures a == Pending && b == Pending && capacity == 2 ==> FirstFree(Pair(a, b), agents, capacity) == [0, 1]
    ensures a == Pending && b == Pending && capacity == 1 ==> FirstFree(Pair(a, b), agents, capacity) == [0]
    ensures a != Pending && b == Pending && capacity == 1 ==> FirstFree(Pair(a, b), agents, capacity) == [1]
  {
    PairIsFree(a, b, agents);
    var tasks := Pair(a, b);
    assert FreeBefore(tasks, agents, 1) == FreeBefore(tasks, agents, 0) + if Free(tasks, agents, 0) then [0] else [];
    assert FreeBefore(tasks, agents, 2) == FreeBefore(tasks, agents, 1) + if Free(tasks, agents, 1) then [1] else [];
  }

  lemma ActiveInPair(a: TaskState, b: TaskState)
    ensures ActiveCount(Pair(a, b)) == (if a == Active then 1 else 0) + if b == Active then 1 else 0
  {
    assert Pair(a, b)[..1] == [Pair(a, b)[0]];
  }

  lemma RoundIs(tasks: seq<Task>, agents: Agents, maxConcurrency: nat, recovery: bool, batch: seq<nat>,
                after: seq<Task>, agents': Agents)
    requires batch == FirstFree(tasks, agents, Capacity(tasks, maxConcurrency)) && Increasing(batch, |tasks|)
    requires Dispatched(tasks, agents, after, agents', batch, |batch|, recovery)
    ensures RoundTo(tasks, agents, maxConcurrency, recovery, Snapshot(after, agents', if AllDone(tasks) then Finished else Executing))
  {
    BatchIsFirstFree(tasks, agents, batch, Capacity(tasks, maxConcurrency));
    assert Round(tasks, agents, maxConcurrency, after, agents', batch, recovery);
  }

  /** The agent once it was handed a task. */
  function Handed(a: Agent, task: string, recovery: bool): Agent {
    Leased(a, DispatchKey(a, task, recovery)).(current := task)
  }

  lemma BothAssigned(p: Agent, q: Agent)
    ensures AssignedAll(Pair(Pending, Pending), Team(p, q), [0, 1], 2, false)
      == Team(Handed(p, "a", false), Handed(q, "b", false))
  {
    var tasks, agents := Pair(Pending, Pending), Team(p, q);
    NextAssigned(tasks, agents, [0, 1], 0, false);
    NextAssigned(tasks, agents, [0, 1], 1, false);
    assert Assigned(agents, tasks[0], false) == Team(Handed(p, "a", false), q);
  }

  lemma BothStart(p: Agent, q: Agent)
    ensures RoundTo(Pair(Pending, Pending), Team(p, q), 2, false,
                    Snapshot(Pair(Active, Active), Team(Handed(p, "a", false), Handed(q, "b", false)), Executing))
  {
    var tasks, agents := Pair(Pending, Pending), Team(p, q);
    ActiveInPair(Pending, Pending);
    ActiveInPair(Active, Active);
    FirstFreeOfPair(Pending, Pending, agents, 2);
    BothAssigned(p, q);
    assert [0, 1][..2] == [0, 1];
    assert tasks[0].state == Pending;
    RoundIs(tasks, agents, 2, false, [0, 1], Pair(Active, Active), Team(Handed(p, "a", false), Handed(q, "b", false)));
  }

  lemma FirstStarts(p: Agent, q: Agent)
    ensures RoundTo(Pair(Pending, Pending), Team(p, q), 1, true,
                    Snapshot(Pair(Active, Pending), Team(Handed(p, "a", true), q), Executing))
  {
    var tasks, agents := Pair(Pending, Pending), Team(p, q);
    ActiveInPair(Pending, Pending);
    ActiveInPair(Active, Pending);
    FirstFreeOfPair(Pending, Pending, agents, 1);
    assert AssignedAll(tasks, agents, [0], 0, true) == agents;
    assert AssignedAll(tasks, agents, [0], 1, true) == Assigned(agents, tasks[0], true);
    assert [0][..1] == [0];
    assert tasks[0].state == Pending;
    RoundIs(tasks, agents, 1, true, [0], Pair(Active, Pending), Team(Handed(p, "a", true), q));
  }

  lemma SecondStarts(p: Agent, q: Agent)
    ensures RoundTo(Pair(Completed, Pending), Team(p, q), 1, false,
                    Snapshot(Pair(Completed, Active), Team(p, Handed(q, "b", false)), Executing))
  {
    var tasks, agents := Pair(Completed, Pending), Team(p, q);
    ActiveInPair(Completed, Pending);
    ActiveInPair(Completed, Active);
    FirstFreeOfPair(Completed, Pending, agents, 1);
    assert AssignedAll(tasks, agents, [1], 0, false) == agents;
    assert AssignedAll(tasks, agents, [1], 1, false) == Assigned(agents, tasks[1], false);
    assert [1][..1] == [1];
    assert tasks[1].state == Pending;
    RoundIs(tasks, agents, 1, false, [1], Pair(Completed, Active), Team(p, Handed(q, "b", false)));
  }

  // ---- The run ----

  const P1: Agent := Agent("", 1, 1, LeaseKey("a", None), "a")
  const P2: Agent := Agent("", 2, 2, LeaseKey("a", Some(2)), "a")
  const Q1: Agent := Agent("", 1, 1, LeaseKey("b", None), "b")

  function Idle(a: Agent): Agent {
    a.(current := "")
  }

  const BEFORE: Snapshot := Snapshot(Pair(Pending, Pending), Team(NEW_AGENT, NEW_AGENT), Executing)
  const STARTED: Snapshot := Snapshot(Pair(Active, Active), Team(P1, Q1), Executing)
  const HELD: Snapshot := Snapshot(Pair(Stopped, Stopped), Team(P1, Q1), OnHold)
  const RELEASED: Snapshot := Snapshot(Pair(Active, Pending), Team(P2, Idle(Q1)), Executing)
  const LAST: Snapshot := Snapshot(Pair(Completed, Active), Team(Idle(P2), Q1), Executing)

  lemma DispatchStep()
    ensures Step(BEFORE, Dispatch, 2, STARTED)
  {
    assert Handed(NEW_AGENT, "a", false) == P1 && Handed(NEW_AGENT, "b", false) == Q1;
    BothStart(NEW_AGENT, NEW_AGENT);
  }

  lemma HoldStep()
    ensures Step(STARTED, Hold, 2, HELD)
  {
    assert OnHoldTasks(Pair(Active, Active)) == Pair(Stopped, Stopped);
  }

  lemma ReleaseStep()
    ensures Step(HELD, Release, 1, RELEASED)
  {
    assert ReleasedTasks(Pair(Stopped, Stopped)) == Pair(Pending, Pending);
    assert Cleared(Team(P1, Q1)) == Team(Idle(P1), Idle(Q1));
    assert Handed(Idle(P1), "a", true) == P2;
    FirstStarts(Idle(P1), Idle(Q1));
  }

  lemma ResultOfFirst()
    ensures CanResult(RELEASED, "p") && TasksAfterResult(RELEASED, "p") == Pair(Completed, Pending)
    ensures Freed(RELEASED.agents, "p") == Team(Idle(P2), Idle(Q1))
  {
    assert IndexOf(RELEASED.tasks, "a") == Some(0) by {
      assert RELEASED.tasks[0].key == "a" && RELEASED.tasks[1].key == "b";
    }
    assert Finish(RELEASED.tasks, 0) == Pair(Completed, Pending);
  }

  lemma ResultStep()
    ensures Step(RELEASED, Result("p"), 1, LAST)
  {
    ResultOfFirst();
    assert Handed(Idle(Q1), "b", false) == Q1;
    SecondStarts(Idle(P2), Idle(Q1));
  }

  lemma ReachesHeld()
    ensures Reaches(BEFORE, HELD)
  {
    ReachesItself(BEFORE);
    DispatchStep();
    ReachesMore(BEFORE, BEFORE, Dispatch, 2, STARTED);
    HoldStep();
    ReachesMore(BEFORE, STARTED, Hold, 2, HELD);
  }

  lemma ReachesLast()
    ensures Reaches(HELD, LAST)
  {
    ReachesItself(HELD);
    ReleaseStep();
    ReachesMore(HELD, HELD, Release, 1, RELEASED);
    ResultStep();
    ReachesMore(HELD, RELEASED, Result("p"), 1, LAST);
  }

  lemma PairHasATeam()
    ensures FreshTeam(TwoTasks("q"), BEFORE.agents)
  {
    assert TwoTasks("q")[0].participant == "p" && TwoTasks("q")[1].participant == "q";
  }

  lemma BeforeIsAPlan()
    ensures Launchable(TwoTasks("q"), BEFORE.agents)
  {
    TwoTasksAreAPlan("q");
    PairHasATeam();
  }

  lemma BeforeIsItsStart()
    ensures BEFORE == StartOf(TwoTasks("q"), BEFORE.agents)
  {
    assert PlannedTasks(TwoTasks("q")) == Pair(Pending, Pending);
  }

  /**
   * In a run of an accepted plan both tasks start, the run is held, the limit is
   * lowered to one, the run is released and the first result comes: the second task is
   * active again, at the attempt and fence it was interrupted at.
   */
  lemma InterruptedLeaseIsUsedAgain()
    ensures Launchable(TwoTasks("q"), BEFORE.agents) && BEFORE == StartOf(TwoTasks("q"), BEFORE.agents)
    ensures Reaches(BEFORE, HELD) && Reaches(HELD, LAST)
    ensures HELD.agents["q"] == LAST.agents["q"] == Q1
    ensures HELD.tasks[1].state == Stopped && LAST.tasks[1].state == Active && LAST.tasks[1].key == Q1.current
  {
    BeforeIsAPlan();
    BeforeIsItsStart();
    ReachesHeld();
    ReachesLast();
  }
}
