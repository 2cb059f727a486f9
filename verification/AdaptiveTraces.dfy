/**
 * Whole executions of a planned run: every series of dispatches, results, additions,
 * recoveries, holds and releases, and when such a series finishes the run.
 */
module AdaptiveTraces {
  import opened Wrappers
  import opened PlannerGraph
  import opened Scheduler
  import opened Batches
  import opened AdaptiveRuns

  // ---- How much is left ----

  function Unfinished(tasks: seq<Task>): (n: nat)
    ensures n <= |tasks|
  {
    if tasks == [] then 0
    else Unfinished(tasks[..|tasks| - 1]) + if tasks[|tasks| - 1].state == Completed then 0 else 1
  }

  lemma {:induction false} NothingUnfinished(tasks: seq<Task>)
    ensures Unfinished(tasks) == 0 <==> AllDone(tasks)
  {
    if tasks != [] {
      NothingUnfinished(tasks[..|tasks| - 1]);
    }
  }

  lemma {:induction false} UnfinishedCarriesOver(tasks: seq<Task>, after: seq<Task>)
    requires |tasks| == |after|
    requires forall i :: 0 <= i < |tasks| ==> (after[i].state == Completed <==> tasks[i].state == Completed)
    ensures Unfinished(after) == Unfinished(tasks)
  {
    if tasks != [] {
      UnfinishedCarriesOver(tasks[..|tasks| - 1], after[..|after| - 1]);
    }
  }

  lemma {:induction false} FinishLowers(tasks: seq<Task>, i: nat)
    requires i < |tasks| && tasks[i].state != Completed
    ensures Unfinished(Finish(tasks, i)) == Unfinished(tasks) - 1
  {
    var n := |tasks| - 1;
    if i < n {
      FinishLowers(tasks[..n], i);
      assert Finish(tasks, i)[..n] == Finish(tasks[..n], i);
    } else {
      assert Finish(tasks, i)[..n] == tasks[..n];
    }
  }

  lemma AdditionRaises(tasks: seq<Task>, t: Task)
    requires t.state == Pending
    ensures Unfinished(tasks + [t]) == Unfinished(tasks) + 1
  {
    assert (tasks + [t])[..|tasks|] == tasks;
  }

  // ---- One round, whoever runs it ----

  /** Starting the tasks of a legal batch one by one has an outcome that keeps every invariant. */
  lemma StartAll(tasks: seq<Task>, agents: Agents, order: seq<string>, batch: seq<nat>, recovery: bool)
    returns (after: seq<Task>, agents': Agents)
    requires RunFits(tasks, agents, order, Executing) && SafeBatch(tasks, agents, batch)
    ensures RunFits(after, agents', order, Executing)
    ensures Dispatched(tasks, agents, after, agents', batch, |batch|, recovery)
  {
    after, agents' := tasks, agents;
    BatchStartsWaiting(tasks, agents, order, batch, recovery);
    for n := 0 to |batch|
      invariant Starting(tasks, agents, order, after, agents', batch, n, recovery)
    {
      assert Eligible(tasks, batch[n]);
      StartOneMore(tasks, agents, order, after, agents', batch, n, recovery);
      after, agents' := Started(after, batch[n]), Assigned(agents', tasks[batch[n]], recovery);
    }
  }

  lemma SameOutcome(tasks: seq<Task>, agents: Agents, batch: seq<nat>, recovery: bool,
                    a: seq<Task>, a': Agents, b: seq<Task>, b': Agents)
    requires Increasing(batch, |tasks|)
    requires Dispatched(tasks, agents, a, a', batch, |batch|, recovery)
    requires Dispatched(tasks, agents, b, b', batch, |batch|, recovery)
    ensures a == b && a' == b'
  {
    forall i | 0 <= i < |tasks| ensures a[i] == b[i] {
      assert a[i].(state := tasks[i].state) == tasks[i] && b[i].(state := tasks[i].state) == tasks[i];
    }
  }

  lemma RoundKeepsRun(tasks: seq<Task>, agents: Agents, order: seq<string>, maxConcurrency: nat, recovery: bool, to: Snapshot)
    requires RunFits(tasks, agents, order, Executing) && RoundTo(tasks, agents, maxConcurrency, recovery, to)
    ensures RunFits(to.tasks, to.agents, order, to.phase)
    ensures AllDone(to.tasks) <==> AllDone(tasks)
    ensures Unfinished(to.tasks) == Unfinished(tasks) && SameTasks(tasks, to.tasks)
  {
    var batch :| Round(tasks, agents, maxConcurrency, to.tasks, to.agents, batch, recovery);
    var after, agents' := StartAll(tasks, agents, order, batch, recovery);
    SameOutcome(tasks, agents, batch, recovery, after, agents', to.tasks, to.agents);
    DispatchCompletesNothing(tasks, agents, after, agents', batch, recovery);
    CompletedStay(tasks, agents, after, agents', batch, recovery);
    UnfinishedCarriesOver(tasks, after);
  }

  lemma CompletedStay(tasks: seq<Task>, agents: Agents, after: seq<Task>, agents': Agents, batch: seq<nat>, recovery: bool)
    requires SafeBatch(tasks, agents, batch) && Dispatched(tasks, agents, after, agents', batch, |batch|, recovery)
    ensures forall i :: 0 <= i < |tasks| ==> (after[i].state == Completed <==> tasks[i].state == Completed)
  {
    assert batch[..|batch|] == batch;
    forall i | 0 <= i < |tasks| && i in batch ensures tasks[i].state == Pending {
      var a :| 0 <= a < |batch| && batch[a] == i;
      assert Eligible(tasks, batch[a]);
    }
  }

  /** The round that starts the first free tasks, and what it leaves. */
  lemma RoundOf(tasks: seq<Task>, agents: Agents, order: seq<string>, maxConcurrency: nat, recovery: bool, batch: seq<nat>)
    returns (to: Snapshot)
    requires RunFits(tasks, agents, order, Executing) && batch == FirstFree(tasks, agents, Capacity(tasks, maxConcurrency))
    ensures Round(tasks, agents, maxConcurrency, to.tasks, to.agents, batch, recovery)
    ensures to.phase == if AllDone(tasks) then Finished else Executing
  {
    BatchIsFirstFree(tasks, agents, batch, Capacity(tasks, maxConcurrency));
    var after, agents' := StartAll(tasks, agents, order, batch, recovery);
    to := Snapshot(after, agents', if AllDone(tasks) then Finished else Executing);
  }

  lemma RoundExists(tasks: seq<Task>, agents: Agents, order: seq<string>, maxConcurrency: nat, recovery: bool)
    returns (to: Snapshot)
    requires RunFits(tasks, agents, order, Executing)
    ensures RoundTo(tasks, agents, maxConcurrency, recovery, to)
  {
    to := RoundOf(tasks, agents, order, maxConcurrency, recovery, FirstFree(tasks, agents, Capacity(tasks, maxConcurrency)));
  }

  // ---- One event ----

  /** A state a run can be in: the invariants hold, and it is finished exactly when no task is left. */
  ghost predicate Sound(s: Snapshot) {
    && (exists order :: RunFits(s.tasks, s.agents, order, s.phase))
    && (s.phase == Finished <==> AllDone(s.tasks)) && Named(s.tasks)
  }

  predicate Named(tasks: seq<Task>) {
    forall i :: 0 <= i < |tasks| ==> tasks[i].key != ""
  }

  function Change(e: Event): int {
    match e
    case Result(_) => -1
    case Addition(_) => 1
    case _ => 0
  }

  lemma ResultLeaves(s: Snapshot, order: seq<string>, role: string)
    requires RunFits(s.tasks, s.agents, order, Executing) && CanResult(s, role)
    ensures RunFits(TasksAfterResult(s, role), Freed(s.agents, role), order, Executing)
    ensures Unfinished(TasksAfterResult(s, role)) == Unfinished(s.tasks) - 1
  {
    AgentWorksOnActiveTask(s.tasks, s.agents, role);
    var i := IndexOf(s.tasks, s.agents[role].current).value;
    CompletionKeepsRun(s.tasks, s.agents, order, i, role);
    FinishLowers(s.tasks, i);
  }

  lemma MovedKeepsUnfinished(tasks: seq<Task>, from: set<TaskState>, to: TaskState)
    requires Completed !in from && to != Completed
    ensures Unfinished(Moved(tasks, from, to)) == Unfinished(tasks)
  {
    UnfinishedCarriesOver(tasks, Moved(tasks, from, to));
  }

  lemma RoundIsSound(tasks: seq<Task>, agents: Agents, order: seq<string>, maxConcurrency: nat, recovery: bool, to: Snapshot)
    requires RunFits(tasks, agents, order, Executing) && RoundTo(tasks, agents, maxConcurrency, recovery, to)
    requires Named(tasks)
    ensures Sound(to) && Unfinished(to.tasks) == Unfinished(tasks)
  {
    RoundKeepsRun(tasks, agents, order, maxConcurrency, recovery, to);
    forall i | 0 <= i < |tasks| ensures to.tasks[i].key == tasks[i].key {
      assert to.tasks[i].(state := tasks[i].state) == tasks[i];
    }
  }

  lemma MovedKeepsNamed(tasks: seq<Task>, from: set<TaskState>, to: TaskState)
    requires Named(tasks)
    ensures Named(Moved(tasks, from, to))
  {
  }

  lemma ResetPrepares(tasks: seq<Task>, agents: Agents, order: seq<string>)
    requires RunFits(tasks, agents, order, Executing) && Named(tasks)
    ensures RunFits(Reset(tasks), Cleared(agents), order, Executing)
    ensures Named(Reset(tasks)) && Unfinished(Reset(tasks)) == Unfinished(tasks)
  {
    ResetKeepsRun(tasks, agents, order, Executing);
    MovedKeepsNamed(tasks, INTERRUPTED, Pending);
    MovedKeepsUnfinished(tasks, INTERRUPTED, Pending);
  }

  lemma RecoveryCounts(s: Snapshot, order: seq<string>, maxConcurrency: nat, to: Snapshot)
    requires RunFits(s.tasks, s.agents, order, Executing) && Named(s.tasks)
    requires RoundTo(Reset(s.tasks), Cleared(s.agents), maxConcurrency, true, to)
    ensures Sound(to) && Unfinished(to.tasks) == Unfinished(s.tasks)
  {
    ResetPrepares(s.tasks, s.agents, order);
    RoundIsSound(Reset(s.tasks), Cleared(s.agents), order, maxConcurrency, true, to);
  }

  lemma ReleasePrepares(tasks: seq<Task>, agents: Agents, order: seq<string>)
    requires RunFits(tasks, agents, order, OnHold) && Named(tasks)
    ensures RunFits(ReleasedTasks(tasks), Cleared(agents), order, Executing)
    ensures Named(ReleasedTasks(tasks)) && Unfinished(ReleasedTasks(tasks)) == Unfinished(tasks)
  {
    ReleaseKeepsRun(tasks, agents, order);
    MovedKeepsNamed(tasks, {Stopped}, Pending);
    MovedKeepsUnfinished(tasks, {Stopped}, Pending);
  }

  lemma ReleaseCounts(s: Snapshot, order: seq<string>, maxConcurrency: nat, to: Snapshot)
    requires RunFits(s.tasks, s.agents, order, OnHold) && Named(s.tasks)
    requires RoundTo(ReleasedTasks(s.tasks), Cleared(s.agents), maxConcurrency, true, to)
    ensures Sound(to) && Unfinished(to.tasks) == Unfinished(s.tasks)
  {
    ReleasePrepares(s.tasks, s.agents, order);
    RoundIsSound(ReleasedTasks(s.tasks), Cleared(s.agents), order, maxConcurrency, true, to);
  }

  lemma ResultCounts(s: Snapshot, role: string, order: seq<string>, maxConcurrency: nat, to: Snapshot)
    requires RunFits(s.tasks, s.agents, order, s.phase) && Step(s, Result(role), maxConcurrency, to)
    requires Named(s.tasks)
    ensures Sound(to) && Unfinished(to.tasks) == Unfinished(s.tasks) - 1
  {
    ResultLeaves(s, order, role);
    RoundIsSound(TasksAfterResult(s, role), Freed(s.agents, role), order, maxConcurrency, false, to);
  }

  lemma AdditionCounts(s: Snapshot, t: Task, order: seq<string>, to: Snapshot)
    requires RunFits(s.tasks, s.agents, order, s.phase) && CanAdd(s, t) && to == s.(tasks := s.tasks + [t])
    requires Named(s.tasks)
    ensures Sound(to) && Unfinished(to.tasks) == Unfinished(s.tasks) + 1
  {
    AdditionKeepsRun(s.tasks, s.agents, order, t);
    AdditionRaises(s.tasks, t);
    assert to.tasks[|s.tasks|].state == Pending;
    FitsIsSound(to, order + [t.key]);
  }

  lemma HoldCounts(s: Snapshot, order: seq<string>, to: Snapshot)
    requires RunFits(s.tasks, s.agents, order, s.phase) && !AllDone(s.tasks) && Named(s.tasks)
    requires s.phase == Executing && to == s.(tasks := OnHoldTasks(s.tasks), phase := OnHold)
    ensures Sound(to) && Unfinished(to.tasks) == Unfinished(s.tasks)
  {
    HoldKeepsRun(s.tasks, s.agents, order);
    HeldIsUnfinished(s.tasks);
    FitsIsSound(to, order);
  }

  lemma HeldIsUnfinished(tasks: seq<Task>)
    requires !AllDone(tasks)
    ensures Unfinished(OnHoldTasks(tasks)) == Unfinished(tasks) && !AllDone(OnHoldTasks(tasks))
  {
    MovedKeepsUnfinished(tasks, UNFINISHED, Stopped);
    NothingUnfinished(tasks);
    NothingUnfinished(OnHoldTasks(tasks));
  }

  lemma FitsIsSound(s: Snapshot, order: seq<string>)
    requires RunFits(s.tasks, s.agents, order, s.phase) && (s.phase == Finished <==> AllDone(s.tasks)) && Named(s.tasks)
    ensures Sound(s)
  {
  }

  /** Every event keeps a run sound, and only results and additions change how much is left, by one each. */
  lemma StepCounts(s: Snapshot, e: Event, maxConcurrency: nat, to: Snapshot)
    requires Sound(s) && Step(s, e, maxConcurrency, to)
    ensures Sound(to) && Unfinished(to.tasks) == Unfinished(s.tasks) + Change(e)
  {
    var order :| RunFits(s.tasks, s.agents, order, s.phase);
    match e
    case Dispatch => RoundIsSound(s.tasks, s.agents, order, maxConcurrency, false, to);
    case Result(role) => ResultCounts(s, role, order, maxConcurrency, to);
    case Addition(t) => AdditionCounts(s, t, order, to);
    case Recovery => RecoveryCounts(s, order, maxConcurrency, to);
    case Hold => HoldCounts(s, order, to);
    case Release => ReleaseCounts(s, order, maxConcurrency, to);
  }

  // ---- Whole executions ----

  datatype Occurrence = Occurrence(event: Event, maxConcurrency: nat)

  /** `states[k + 1]` is what the k-th occurrence made of `states[k]`. */
  ghost predicate Trace(states: seq<Snapshot>, events: seq<Occurrence>) {
    |states| == |events| + 1
    && forall k :: 0 <= k < |events| ==> Step(states[k], events[k].event, events[k].maxConcurrency, states[k + 1])
  }

  ghost predicate Reaches(s: Snapshot, t: Snapshot) {
    exists states, events :: Trace(states, events) && states[0] == s && states[|events|] == t
  }

  lemma ReachesItself(s: Snapshot)
    ensures Reaches(s, s)
  {
    assert Trace([s], []);
  }

  /** One step more at the end of a trace. */
  lemma StepAfter(states: seq<Snapshot>, events: seq<Occurrence>, e: Event, maxConcurrency: nat, u: Snapshot)
    requires Trace(states, events) && Step(states[|events|], e, maxConcurrency, u)
    ensures Trace(states + [u], events + [Occurrence(e, maxConcurrency)])
  {
    var states', events' := states + [u], events + [Occurrence(e, maxConcurrency)];
    forall k | 0 <= k < |events'|
      ensures Step(states'[k], events'[k].event, events'[k].maxConcurrency, states'[k + 1])
    {
      if k < |events| {
        assert states'[k] == states[k] && states'[k + 1] == states[k + 1] && events'[k] == events[k];
      }
    }
  }

  lemma ReachesMore(s: Snapshot, t: Snapshot, e: Event, maxConcurrency: nat, u: Snapshot)
    requires Reaches(s, t) && Step(t, e, maxConcurrency, u)
    ensures Reaches(s, u)
  {
    var states, events :| Trace(states, events) && states[0] == s && states[|events|] == t;
    StepAfter(states, events, e, maxConcurrency, u);
    assert (states + [u])[|events| + 1] == u;
  }

  function Results(events: seq<Occurrence>): nat {
    if events == [] then 0
    else Results(events[..|events| - 1]) + if events[|events| - 1].event.Result? then 1 else 0
  }

  function Additions(events: seq<Occurrence>): nat {
    if events == [] then 0
    else Additions(events[..|events| - 1]) + if events[|events| - 1].event.Addition? then 1 else 0
  }

  lemma {:induction false} TraceCounts(states: seq<Snapshot>, events: seq<Occurrence>)
    requires Trace(states, events) && Sound(states[0])
    ensures Sound(states[|events|])
    ensures Unfinished(states[|events|].tasks) + Results(events) == Unfinished(states[0].tasks) + Additions(events)
    decreases |events|
  {
    if events != [] {
      var n := |events| - 1;
      assert Trace(states[..n + 1], events[..n]);
      TraceCounts(states[..n + 1], events[..n]);
      StepCounts(states[n], events[n].event, events[n].maxConcurrency, states[n + 1]);
    }
  }

  /** Whatever happens in between, a run is finished exactly when as many results counted as it was given tasks. */
  lemma FinishedExactlyWhenAllResultsCame(states: seq<Snapshot>, events: seq<Occurrence>)
    requires Trace(states, events) && Sound(states[0])
    ensures states[|events|].phase == Finished <==> Results(events) == Unfinished(states[0].tasks) + Additions(events)
  {
    TraceCounts(states, events);
    NothingUnfinished(states[|events|].tasks);
  }

  // ---- Somebody works on every active task ----

  /** The tasks and agents that the round of an event starts from. */
  function RoundFrom(s: Snapshot, e: Event): Option<(seq<Task>, Agents)> {
    match e
    case Dispatch => Some((s.tasks, s.agents))
    case Result(role) => if role in s.agents then Some((TasksAfterResult(s, role), Freed(s.agents, role))) else None
    case Recovery => Some((Reset(s.tasks), Cleared(s.agents)))
    case Release => Some((ReleasedTasks(s.tasks), Cleared(s.agents)))
    case _ => None
  }

  /** The round of this event gives a participant two tasks. */
  ghost predicate Strands(s: Snapshot, e: Event, maxConcurrency: nat) {
    RoundFrom(s, e).Some?
    && TwoForOne(RoundFrom(s, e).value.0, RoundFrom(s, e).value.1, Capacity(RoundFrom(s, e).value.0, maxConcurrency))
  }

  lemma ResultKeepsServed(s: Snapshot, order: seq<string>, role: string)
    requires RunFits(s.tasks, s.agents, order, Executing) && CanResult(s, role) && Served(s.tasks, s.agents)
    ensures Served(TasksAfterResult(s, role), Freed(s.agents, role))
  {
    AgentWorksOnActiveTask(s.tasks, s.agents, role);
  }

  lemma RoundToServes(tasks: seq<Task>, agents: Agents, order: seq<string>, maxConcurrency: nat, recovery: bool, to: Snapshot)
    requires RunFits(tasks, agents, order, Executing) && Served(tasks, agents)
    requires RoundTo(tasks, agents, maxConcurrency, recovery, to)
    ensures Served(to.tasks, to.agents) <==> !TwoForOne(tasks, agents, Capacity(tasks, maxConcurrency))
  {
    var batch :| Round(tasks, agents, maxConcurrency, to.tasks, to.agents, batch, recovery);
    RoundServes(tasks, agents, order, maxConcurrency, to.tasks, to.agents, batch, recovery);
  }

  /**
   * After an event with a round every active task is being worked on exactly when the
   * round gave nobody two tasks.  A recovery or a release needs nothing of the state before.
   */
  lemma ServedExactlyWhenNotStranded(s: Snapshot, e: Event, maxConcurrency: nat, to: Snapshot)
    requires Sound(s) && Step(s, e, maxConcurrency, to) && RoundFrom(s, e).Some?
    requires (e.Dispatch? || e.Result?) ==> Served(s.tasks, s.agents)
    ensures Served(to.tasks, to.agents) <==> !Strands(s, e, maxConcurrency)
  {
    var order :| RunFits(s.tasks, s.agents, order, s.phase);
    var from := RoundFrom(s, e).value;
    match e
    case Dispatch =>
      RoundToServes(from.0, from.1, order, maxConcurrency, false, to);
    case Result(role) =>
      ResultLeaves(s, order, role);
      ResultKeepsServed(s, order, role);
      RoundToServes(from.0, from.1, order, maxConcurrency, false, to);
    case Recovery =>
      ResetKeepsRun(s.tasks, s.agents, order, Executing);
      RoundToServes(from.0, from.1, order, maxConcurrency, true, to);
    case _ =>
      ReleaseKeepsRun(s.tasks, s.agents, order);
      RoundToServes(from.0, from.1, order, maxConcurrency, true, to);
  }

  /** While a run executes, all its active tasks are being worked on, and there are some. */
  ghost predicate Live(s: Snapshot) {
    s.phase == Executing ==> Served(s.tasks, s.agents) && ActiveCount(s.tasks) > 0
  }

  lemma RoundIsActive(tasks: seq<Task>, agents: Agents, order: seq<string>, maxConcurrency: nat, recovery: bool, to: Snapshot)
    requires RunFits(tasks, agents, order, Executing) && WritersPlaced(tasks, agents)
    requires RoundTo(tasks, agents, maxConcurrency, recovery, to) && to.phase == Executing
    ensures ActiveCount(to.tasks) > 0
  {
    var batch :| Round(tasks, agents, maxConcurrency, to.tasks, to.agents, batch, recovery);
    RoundLeavesSomethingActive(tasks, agents, order, maxConcurrency, to.tasks, to.agents, batch, recovery);
  }

  lemma MovedKeepsPlaced(tasks: seq<Task>, agents: Agents, from: set<TaskState>, to: TaskState)
    requires WritersPlaced(tasks, agents)
    ensures WritersPlaced(Moved(tasks, from, to), Cleared(agents))
  {
    var after := Moved(tasks, from, to);
    forall i | 0 <= i < |after| && Writes(after[i]) ensures WorkspaceOf(Cleared(agents), after[i]) != "" {
      assert WorkspaceOf(agents, tasks[i]) != "";
    }
  }

  lemma ResultKeepsPlaced(s: Snapshot, role: string)
    requires WritersPlaced(s.tasks, s.agents) && role in s.agents
    ensures WritersPlaced(TasksAfterResult(s, role), Freed(s.agents, role))
  {
    var after, agents := TasksAfterResult(s, role), Freed(s.agents, role);
    forall i | 0 <= i < |after| && Writes(after[i]) ensures WorkspaceOf(agents, after[i]) != "" {
      assert WorkspaceOf(s.agents, s.tasks[i]) != "" && after[i].participant == s.tasks[i].participant;
    }
  }

  lemma EventIsActive(s: Snapshot, e: Event, maxConcurrency: nat, to: Snapshot)
    requires Sound(s) && Step(s, e, maxConcurrency, to) && WritersPlaced(s.tasks, s.agents)
    requires RoundFrom(s, e).Some? && to.phase == Executing
    ensures ActiveCount(to.tasks) > 0
  {
    var order :| RunFits(s.tasks, s.agents, order, s.phase);
    var from := RoundFrom(s, e).value;
    match e
    case Dispatch =>
      RoundIsActive(from.0, from.1, order, maxConcurrency, false, to);
    case Result(role) =>
      ResultLeaves(s, order, role);
      ResultKeepsPlaced(s, role);
      RoundIsActive(from.0, from.1, order, maxConcurrency, false, to);
    case Recovery =>
      ResetKeepsRun(s.tasks, s.agents, order, Executing);
      MovedKeepsPlaced(s.tasks, s.agents, INTERRUPTED, Pending);
      RoundIsActive(from.0, from.1, order, maxConcurrency, true, to);
    case _ =>
      ReleaseKeepsRun(s.tasks, s.agents, order);
      MovedKeepsPlaced(s.tasks, s.agents, {Stopped}, Pending);
      RoundIsActive(from.0, from.1, order, maxConcurrency, true, to);
  }

  lemma AdditionKeepsLive(s: Snapshot, t: Task)
    requires Live(s) && CanAdd(s, t)
    ensures Live(s.(tasks := s.tasks + [t]))
  {
    assert (s.tasks + [t])[..|s.tasks|] == s.tasks;
  }

  /** Work is going on, or the next event is the dispatch that starts it. */
  ghost predicate LiveFor(s: Snapshot, e: Event) {
    Live(s) || (Served(s.tasks, s.agents) && e.Dispatch?)
  }

  /** A live run stays live, as long as no round gives anybody two tasks. */
  lemma LiveStays(s: Snapshot, e: Event, maxConcurrency: nat, to: Snapshot)
    requires Sound(s) && LiveFor(s, e) && Step(s, e, maxConcurrency, to)
    requires WritersPlaced(s.tasks, s.agents) && !Strands(s, e, maxConcurrency)
    ensures Live(to)
  {
    match e
    case Addition(t) => AdditionKeepsLive(s, t);
    case Hold =>
    case _ =>
      ServedExactlyWhenNotStranded(s, e, maxConcurrency, to);
      if to.phase == Executing {
        EventIsActive(s, e, maxConcurrency, to);
      }
  }

  // ---- A run gets to its end ----

  /** Some result frame would be accepted now: the one of this agent, at its current lease. */
  ghost predicate SomeResultCounts(s: Snapshot) {
    exists role :: CanResult(s, role) && AcceptsResult(s, role, s.agents[role].current,
                                                       Some(s.agents[role].attempt), Some(s.agents[role].fence))
  }

  lemma CurrentCounts(s: Snapshot, role: string)
    requires CanResult(s, role)
    ensures SomeResultCounts(s)
  {
    assert AcceptsResult(s, role, s.agents[role].current, Some(s.agents[role].attempt), Some(s.agents[role].fence));
  }

  lemma LiveCounts(s: Snapshot)
    requires Sound(s) && Live(s) && s.phase == Executing
    ensures SomeResultCounts(s)
  {
    var i :| 0 <= i < |s.tasks| && s.tasks[i].state == Active;
    assert s.agents[s.tasks[i].participant].current == s.tasks[i].key;
    CurrentCounts(s, s.tasks[i].participant);
  }

  lemma NextDispatch(s: Snapshot, maxConcurrency: nat) returns (to: Snapshot)
    requires Sound(s) && s.phase == Executing
    ensures Step(s, Dispatch, maxConcurrency, to)
    ensures Sound(to) && Unfinished(to.tasks) == Unfinished(s.tasks) && to.phase == Executing
  {
    var order :| RunFits(s.tasks, s.agents, order, s.phase);
    to := RoundExists(s.tasks, s.agents, order, maxConcurrency, false);
    StepCounts(s, Dispatch, maxConcurrency, to);
  }

  /** The next result has an outcome, and one task less is left. */
  lemma NextResult(s: Snapshot, maxConcurrency: nat, role: string) returns (to: Snapshot)
    requires Sound(s) && CanResult(s, role)
    ensures Step(s, Result(role), maxConcurrency, to)
    ensures Sound(to) && Unfinished(to.tasks) == Unfinished(s.tasks) - 1
  {
    var order :| RunFits(s.tasks, s.agents, order, s.phase);
    ResultLeaves(s, order, role);
    to := RoundExists(TasksAfterResult(s, role), Freed(s.agents, role), order, maxConcurrency, false);
    StepCounts(s, Result(role), maxConcurrency, to);
  }

  /** A run in which work goes on from the first event. */
  ghost predicate Running(states: seq<Snapshot>, events: seq<Occurrence>) {
    && Trace(states, events) && Sound(states[0])
    && if events == [] then Live(states[0]) else LiveFor(states[0], events[0].event)
  }

  /** Every writer has a workspace, and no round gives a participant two tasks. */
  ghost predicate Undisturbed(states: seq<Snapshot>, events: seq<Occurrence>)
    requires |states| == |events| + 1
  {
    forall k :: 0 <= k < |events| ==>
      WritersPlaced(states[k].tasks, states[k].agents) && !Strands(states[k], events[k].event, events[k].maxConcurrency)
  }

  lemma {:induction false} LiveToTheEnd(states: seq<Snapshot>, events: seq<Occurrence>)
    requires Running(states, events) && Undisturbed(states, events)
    ensures Sound(states[|events|]) && Live(states[|events|])
    decreases |events|
  {
    if events != [] {
      var n := |events| - 1;
      var before, earlier := states[..n + 1], events[..n];
      assert Trace(before, earlier);
      assert Undisturbed(before, earlier) by {
        assert forall k :: 0 <= k < n ==> before[k] == states[k] && earlier[k] == events[k];
      }
      if n > 0 {
        LiveToTheEnd(before, earlier);
        assert before[n] == states[n];
      }
      StepCounts(states[n], events[n].event, events[n].maxConcurrency, states[n + 1]);
      LiveStays(states[n], events[n].event, events[n].maxConcurrency, states[n + 1]);
    }
  }

  /**
   * Through any dispatches, results, additions, recoveries, holds and releases of which
   * none gives a participant two tasks: as long as the run executes some result frame
   * counts, and the run is finished exactly when as many results counted as it was
   * given tasks.
   */
  lemma RunFinishesAfterExactly(states: seq<Snapshot>, events: seq<Occurrence>)
    requires Running(states, events) && Undisturbed(states, events)
    ensures var last := states[|events|];
      && (last.phase == Executing ==> SomeResultCounts(last))
      && (last.phase == Finished <==> Results(events) == Unfinished(states[0].tasks) + Additions(events))
  {
    LiveToTheEnd(states, events);
    FinishedExactlyWhenAllResultsCame(states, events);
    if states[|events|].phase == Executing {
      LiveCounts(states[|events|]);
    }
  }

  /** The state in which an accepted plan starts. */
  function StartOf(plan: seq<PlanTask>, agents: Agents): Snapshot {
    Snapshot(PlannedTasks(plan), agents, Executing)
  }

  /** The agents of a team before they are given work. */
  ghost predicate FreshTeam(plan: seq<PlanTask>, agents: Agents) {
    && (forall i :: 0 <= i < |plan| ==> plan[i].participant in agents)
    && (forall r :: r in agents ==>
          agents[r].attempt == agents[r].fence && RetryKeysPast(agents[r]) && agents[r].current == "")
  }

  /** An accepted plan, which is never empty nor has an unnamed task, and a fresh team for it. */
  ghost predicate Launchable(plan: seq<PlanTask>, agents: Agents) {
    Runnable(plan) && FreshTeam(plan, agents) && plan != [] && forall i :: 0 <= i < |plan| ==> plan[i].id != ""
  }

  lemma {:induction false} NothingDone(tasks: seq<Task>)
    requires forall i :: 0 <= i < |tasks| ==> tasks[i].state == Pending
    ensures Unfinished(tasks) == |tasks|
  {
    if tasks != [] {
      NothingDone(tasks[..|tasks| - 1]);
    }
  }

  lemma StartFits(plan: seq<PlanTask>, agents: Agents, order: seq<string>)
    requires Ordered(PlannedTasks(plan), order) && DistinctKeys(PlannedTasks(plan)) && FreshTeam(plan, agents)
    ensures RunFits(PlannedTasks(plan), agents, order, Executing) && Served(PlannedTasks(plan), agents)
  {
  }

  lemma StartIsSound(plan: seq<PlanTask>, agents: Agents)
    requires Launchable(plan, agents)
    ensures Sound(StartOf(plan, agents)) && Served(PlannedTasks(plan), agents)
    ensures Unfinished(PlannedTasks(plan)) == |plan|
  {
    var order := AcceptedPlanIsOrdered(plan);
    StartFits(plan, agents, order);
    NothingDone(PlannedTasks(plan));
    assert PlannedTasks(plan)[0].state == Pending;
    FitsIsSound(StartOf(plan, agents), order);
  }

  /** A run of an accepted plan, from its first dispatch on. */
  lemma PlanFinishesAfterExactly(plan: seq<PlanTask>, agents: Agents, states: seq<Snapshot>, events: seq<Occurrence>)
    requires Launchable(plan, agents)
    requires Trace(states, events) && states[0] == StartOf(plan, agents)
    requires events != [] && events[0].event == Dispatch && Undisturbed(states, events)
    ensures states[|events|].phase == Executing ==> SomeResultCounts(states[|events|])
    ensures states[|events|].phase == Finished <==> Results(events) == |plan| + Additions(events)
  {
    StartIsSound(plan, agents);
    RunFinishesAfterExactly(states, events);
  }

  /** What a recovery starts from: nobody works, everything else is as it was. */
  lemma RecoveryStart(s: Snapshot, order: seq<string>) returns (tasks: seq<Task>, agents: Agents)
    requires RunFits(s.tasks, s.agents, order, Executing) && Named(s.tasks) && WritersPlaced(s.tasks, s.agents)
    ensures tasks == Reset(s.tasks) && agents == Cleared(s.agents)
    ensures RunFits(tasks, agents, order, Executing) && Named(tasks) && WritersPlaced(tasks, agents)
    ensures AllDone(tasks) <==> AllDone(s.tasks)
    ensures ActiveCount(tasks) == 0
  {
    tasks, agents := Reset(s.tasks), Cleared(s.agents);
    ResetKeepsRun(s.tasks, s.agents, order, Executing);
    MovedKeepsNamed(s.tasks, INTERRUPTED, Pending);
    MovedKeepsPlaced(s.tasks, s.agents, INTERRUPTED, Pending);
  }

  /** After a recovery somebody always works: the last member of the batch has its agent. */
  lemma RecoveryServesSomebody(s: Snapshot, maxConcurrency: nat) returns (to: Snapshot, role: string)
    requires Sound(s) && s.phase == Executing && WritersPlaced(s.tasks, s.agents)
    ensures Step(s, Recovery, maxConcurrency, to) && CanResult(to, role)
    ensures Sound(to) && Unfinished(to.tasks) == Unfinished(s.tasks) && WritersPlaced(to.tasks, to.agents)
  {
    var order :| RunFits(s.tasks, s.agents, order, s.phase);
    to, role := RecoverySomebody(s, order, maxConcurrency);
    RecoveryCounts(s, order, maxConcurrency, to);
  }

  lemma RecoverySomebody(s: Snapshot, order: seq<string>, maxConcurrency: nat) returns (to: Snapshot, role: string)
    requires RunFits(s.tasks, s.agents, order, Executing) && Named(s.tasks) && WritersPlaced(s.tasks, s.agents)
    requires !AllDone(s.tasks)
    ensures RoundTo(Reset(s.tasks), Cleared(s.agents), maxConcurrency, true, to)
    ensures CanResult(to, role) && WritersPlaced(to.tasks, to.agents)
  {
    var tasks, agents := RecoveryStart(s, order);
    to := RoundExists(tasks, agents, order, maxConcurrency, true);
    RoundIsActive(tasks, agents, order, maxConcurrency, true, to);
    role := BatchServesLast(tasks, agents, maxConcurrency, to);
    RoundKeepsPlaced(tasks, agents, maxConcurrency, true, to);
  }

  lemma BatchServesLast(tasks: seq<Task>, agents: Agents, maxConcurrency: nat, to: Snapshot) returns (role: string)
    requires RoundTo(tasks, agents, maxConcurrency, true, to) && Placed(tasks, agents) && Named(tasks)
    requires ActiveCount(tasks) == 0 && ActiveCount(to.tasks) > 0 && to.phase == Executing
    ensures CanResult(to, role)
  {
    var batch :| Round(tasks, agents, maxConcurrency, to.tasks, to.agents, batch, true);
    AssignedAllHandsOut(tasks, agents, batch, |batch|, true);
    role := tasks[batch[|batch| - 1]].participant;
  }

  lemma RoundKeepsPlaced(tasks: seq<Task>, agents: Agents, maxConcurrency: nat, recovery: bool, to: Snapshot)
    requires RoundTo(tasks, agents, maxConcurrency, recovery, to) && WritersPlaced(tasks, agents)
    ensures WritersPlaced(to.tasks, to.agents)
  {
    var batch :| Round(tasks, agents, maxConcurrency, to.tasks, to.agents, batch, recovery);
    AssignedAllHandsOut(tasks, agents, batch, |batch|, recovery);
    forall i | 0 <= i < |tasks| && Writes(to.tasks[i]) ensures WorkspaceOf(to.agents, to.tasks[i]) != "" {
      assert to.tasks[i].(state := tasks[i].state) == tasks[i];
      assert WorkspaceOf(agents, tasks[i]) != "";
    }
  }

  /**
   * Every executing run whose writers have workspaces can be brought to its end, two
   * tasks for one participant or not: with a recovery before each result it takes
   * exactly as many results as tasks are left.
   */
  lemma EveryRunCanFinish(s: Snapshot, maxConcurrency: nat) returns (states: seq<Snapshot>, events: seq<Occurrence>)
    requires Sound(s) && s.phase == Executing && WritersPlaced(s.tasks, s.agents)
    ensures Finishes(s, states, events) && Results(events) == Unfinished(s.tasks)
  {
    states, events := RecoverUntilFinished(s, maxConcurrency);
    TraceCounts(states, events);
    NothingUnfinished(states[|events|].tasks);
    NoAdditions(events);
  }

  predicate RecoveriesAndResults(events: seq<Occurrence>) {
    forall k :: 0 <= k < |events| ==> events[k].event.Recovery? || events[k].event.Result?
  }

  /** One recovery, and the result of somebody it served. */
  lemma RecoverAndReceive(s: Snapshot, maxConcurrency: nat) returns (recovered: Snapshot, role: string, next: Snapshot)
    requires Sound(s) && s.phase == Executing && WritersPlaced(s.tasks, s.agents)
    ensures Step(s, Recovery, maxConcurrency, recovered) && Step(recovered, Result(role), maxConcurrency, next)
    ensures Sound(next) && Unfinished(next.tasks) < Unfinished(s.tasks)
    ensures next.phase != OnHold && WritersPlaced(next.tasks, next.agents)
  {
    recovered, role := RecoveryServesSomebody(s, maxConcurrency);
    next := NextResult(recovered, maxConcurrency, role);
    ResultStepKeepsPlaced(recovered, role, maxConcurrency, next);
  }

  lemma ResultStepKeepsPlaced(s: Snapshot, role: string, maxConcurrency: nat, to: Snapshot)
    requires Step(s, Result(role), maxConcurrency, to) && WritersPlaced(s.tasks, s.agents)
    ensures WritersPlaced(to.tasks, to.agents) && to.phase != OnHold
  {
    ResultKeepsPlaced(s, role);
    RoundKeepsPlaced(TasksAfterResult(s, role), Freed(s.agents, role), maxConcurrency, false, to);
  }

  /** One step more in front of a trace. */
  lemma StepBefore(s: Snapshot, e: Event, maxConcurrency: nat, later: seq<Snapshot>, more: seq<Occurrence>)
    requires Trace(later, more) && Step(s, e, maxConcurrency, later[0])
    ensures Trace([s] + later, [Occurrence(e, maxConcurrency)] + more)
    ensures (e.Recovery? || e.Result?) && RecoveriesAndResults(more) ==>
      RecoveriesAndResults([Occurrence(e, maxConcurrency)] + more)
  {
    var states, events := [s] + later, [Occurrence(e, maxConcurrency)] + more;
    forall k | 0 <= k < |events| ensures Step(states[k], events[k].event, events[k].maxConcurrency, states[k + 1]) {
      if k > 0 {
        assert states[k] == later[k - 1] && states[k + 1] == later[k] && events[k] == more[k - 1];
      }
    }
  }

  /** Recoveries and results that finish the run. */
  ghost predicate Finishes(s: Snapshot, states: seq<Snapshot>, events: seq<Occurrence>) {
    Trace(states, events) && states[0] == s && states[|events|].phase == Finished && RecoveriesAndResults(events)
  }

  lemma FinishesSooner(s: Snapshot, recovered: Snapshot, role: string, next: Snapshot, maxConcurrency: nat,
                       later: seq<Snapshot>, more: seq<Occurrence>)
    returns (states: seq<Snapshot>, events: seq<Occurrence>)
    requires Step(s, Recovery, maxConcurrency, recovered) && Step(recovered, Result(role), maxConcurrency, next)
    requires Finishes(next, later, more)
    ensures Finishes(s, states, events)
  {
    StepBefore(recovered, Result(role), maxConcurrency, later, more);
    states, events := [recovered] + later, [Occurrence(Result(role), maxConcurrency)] + more;
    StepBefore(s, Recovery, maxConcurrency, states, events);
    states, events := [s] + states, [Occurrence(Recovery, maxConcurrency)] + events;
  }

  lemma {:induction false} RecoverUntilFinished(s: Snapshot, maxConcurrency: nat)
    returns (states: seq<Snapshot>, events: seq<Occurrence>)
    requires Sound(s) && s.phase != OnHold && WritersPlaced(s.tasks, s.agents)
    ensures Finishes(s, states, events)
    decreases Unfinished(s.tasks)
  {
    if s.phase == Finished {
      states, events := [s], [];
    } else {
      var recovered, role, next := RecoverAndReceive(s, maxConcurrency);
      var later, more := RecoverUntilFinished(next, maxConcurrency);
      states, events := FinishesSooner(s, recovered, role, next, maxConcurrency, later, more);
    }
  }

  lemma {:induction false} NoAdditions(events: seq<Occurrence>)
    requires RecoveriesAndResults(events)
    ensures Additions(events) == 0
  {
    if events != [] {
      NoAdditions(events[..|events| - 1]);
    }
  }
}
