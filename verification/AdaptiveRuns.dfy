/**
 * A planned run being executed: dispatching batches, adding tasks, holding, recovering
 * and accepting remote results, with the facts that hold in every reachable state.
 */
module AdaptiveRuns {
  import opened Wrappers
  import opened PlannerGraph
  import opened Scheduler
  import opened Batches
  import opened LeaseLog
  import opened Picking

  // ---- State changes that start nothing and complete nothing ----

  function Cleared(agents: Agents): (c: Agents)
    ensures c.Keys == agents.Keys
    ensures forall r :: r in c ==> c[r] == agents[r].(current := "")
  {
    map r | r in agents :: agents[r].(current := "")
  }

  /** Every task in one of the `from` states moves to `to`. */
  function Moved(tasks: seq<Task>, from: set<TaskState>, to: TaskState): (after: seq<Task>)
    ensures |after| == |tasks|
    ensures forall i :: 0 <= i < |tasks| ==>
      after[i] == if tasks[i].state in from then tasks[i].(state := to) else tasks[i]
  {
    seq(|tasks|, i requires 0 <= i < |tasks| => if tasks[i].state in from then tasks[i].(state := to) else tasks[i])
  }

  lemma DoneCarriesOver(tasks: seq<Task>, after: seq<Task>, key: string)
    requires SameTasks(tasks, after)
    requires forall i :: 0 <= i < |tasks| && tasks[i].state == Completed ==> after[i].state == Completed
    ensures Done(tasks, key) ==> Done(after, key)
  {
    if Done(tasks, key) {
      var i :| 0 <= i < |tasks| && tasks[i].key == key && tasks[i].state == Completed;
      assert after[i].key == key;
    }
  }

  lemma QuietChangeKeepsRun(tasks: seq<Task>, after: seq<Task>, agents: Agents, agents': Agents,
                            order: seq<string>, phase: Phase, phase': Phase)
    requires RunFits(tasks, agents, order, phase) && SameTasks(tasks, after) && StatesFit(after, phase')
    requires forall i :: 0 <= i < |tasks| ==> (after[i].state == Completed <==> tasks[i].state == Completed)
    requires forall i :: 0 <= i < |tasks| && after[i].state == Active ==> tasks[i].state == Active
    requires agents' == Cleared(agents) || (agents' == agents && phase' != Executing)
    ensures RunFits(after, agents', order, phase')
    ensures forall key :: Done(after, key) <==> Done(tasks, key)
  {
    ShapeCarriesOver(tasks, after, order);
    forall key ensures Done(after, key) <==> Done(tasks, key) {
      DoneCarriesOver(tasks, after, key);
      DoneCarriesOver(after, tasks, key);
    }
    assert forall i :: 0 <= i < |tasks| ==>
      after[i].dependsOn == tasks[i].dependsOn
      && after[i].participant == tasks[i].participant && after[i].mode == tasks[i].mode;
    DepsCarryOver(tasks, after);
    WritersCarryOver(tasks, after, agents, agents');
  }

  // ---- One completion ----

  function Finish(tasks: seq<Task>, i: nat): seq<Task>
    requires i < |tasks|
  {
    tasks[i := tasks[i].(state := Completed)]
  }

  lemma CompletionKeepsRun(tasks: seq<Task>, agents: Agents, order: seq<string>, i: nat, role: string)
    requires RunFits(tasks, agents, order, Executing)
    requires i < |tasks| && tasks[i].state == Active && tasks[i].participant == role
    requires role in agents && agents[role].current == tasks[i].key
    ensures RunFits(Finish(tasks, i), agents[role := agents[role].(current := "")], order, Executing)
    ensures forall key :: Done(Finish(tasks, i), key) <==> Done(tasks, key) || key == tasks[i].key
    ensures !Done(tasks, tasks[i].key)
  {
    var after, agents' := Finish(tasks, i), agents[role := agents[role].(current := "")];
    CompletionAddsKey(tasks, i);
    ShapeCarriesOver(tasks, after, order);
    DepsCarryOver(tasks, after);
    WritersCarryOver(tasks, after, agents, agents');
    CompletionKeepsAgents(tasks, agents, i, role);
  }

  lemma CompletionAddsKey(tasks: seq<Task>, i: nat)
    requires DistinctKeys(tasks) && i < |tasks| && tasks[i].state == Active
    ensures forall key :: Done(Finish(tasks, i), key) <==> Done(tasks, key) || key == tasks[i].key
    ensures !Done(tasks, tasks[i].key)
  {
    var after := Finish(tasks, i);
    forall key ensures Done(after, key) <==> Done(tasks, key) || key == tasks[i].key {
      DoneCarriesOver(tasks, after, key);
      if key == tasks[i].key {
        assert after[i].key == key;
      }
      if Done(after, key) {
        var j :| 0 <= j < |after| && after[j].key == key && after[j].state == Completed;
        assert j == i || after[j] == tasks[j];
      }
    }
  }

  lemma CompletionKeepsAgents(tasks: seq<Task>, agents: Agents, i: nat, role: string)
    requires AgentsFit(tasks, agents, Executing) && DistinctKeys(tasks)
    requires i < |tasks| && tasks[i].participant == role && role in agents && agents[role].current == tasks[i].key
    ensures AgentsFit(Finish(tasks, i), agents[role := agents[role].(current := "")], Executing)
  {
    var after, agents' := Finish(tasks, i), agents[role := agents[role].(current := "")];
    forall r | r in agents' && agents'[r].current != ""
      ensures exists k :: 0 <= k < |after| && after[k].key == agents'[r].current
                          && after[k].participant == r && after[k].state == Active
    {
      var k :| 0 <= k < |tasks| && tasks[k].key == agents[r].current && tasks[k].participant == r && tasks[k].state == Active;
      assert after[k] == tasks[k];
    }
  }

  // ---- One added task ----

  lemma AdditionKeepsRun(tasks: seq<Task>, agents: Agents, order: seq<string>, t: Task)
    requires RunFits(tasks, agents, order, Executing)
    requires t.dependsOn == [] && t.state == Pending && t.participant in agents
    requires forall i :: 0 <= i < |tasks| ==> tasks[i].key != t.key
    ensures RunFits(tasks + [t], agents, order + [t.key], Executing)
    ensures forall key :: Done(tasks + [t], key) <==> Done(tasks, key)
  {
    AdditionCompletesNothing(tasks, t);
    AdditionKeepsOrder(tasks, order, t);
    AdditionKeepsWork(tasks, agents, t);
    AdditionKeepsAgents(tasks, agents, t);
  }

  lemma AdditionKeepsWork(tasks: seq<Task>, agents: Agents, t: Task)
    requires DistinctKeys(tasks) && DepsRespected(tasks) && OneWriter(tasks, agents) && StatesFit(tasks, Executing)
    requires t.state == Pending && forall i :: 0 <= i < |tasks| ==> tasks[i].key != t.key
    ensures var after := tasks + [t];
      DistinctKeys(after) && DepsRespected(after) && OneWriter(after, agents) && StatesFit(after, Executing)
  {
    AdditionCompletesNothing(tasks, t);
    DepsCarryOver(tasks, tasks + [t]);
    WritersCarryOver(tasks, tasks + [t], agents, agents);
  }

  lemma AdditionCompletesNothing(tasks: seq<Task>, t: Task)
    requires t.state == Pending
    ensures forall key :: Done(tasks + [t], key) <==> Done(tasks, key)
  {
    var after := tasks + [t];
    forall key ensures Done(after, key) <==> Done(tasks, key) {
      if Done(tasks, key) {
        var i :| 0 <= i < |tasks| && tasks[i].key == key && tasks[i].state == Completed;
        assert after[i] == tasks[i];
      }
    }
  }

  lemma AdditionKeepsAgents(tasks: seq<Task>, agents: Agents, t: Task)
    requires AgentsFit(tasks, agents, Executing) && t.participant in agents
    ensures AgentsFit(tasks + [t], agents, Executing)
  {
    var after := tasks + [t];
    forall r | r in agents && agents[r].current != ""
      ensures exists k :: 0 <= k < |after| && after[k].key == agents[r].current
                          && after[k].participant == r && after[k].state == Active
    {
      var k :| 0 <= k < |tasks| && tasks[k].key == agents[r].current && tasks[k].participant == r && tasks[k].state == Active;
      assert after[k] == tasks[k];
    }
  }

  lemma AdditionKeepsOrder(tasks: seq<Task>, order: seq<string>, t: Task)
    requires Ordered(tasks, order) && t.dependsOn == []
    requires forall i :: 0 <= i < |tasks| ==> tasks[i].key != t.key
    ensures Ordered(tasks + [t], order + [t.key])
  {
    var after, order' := tasks + [t], order + [t.key];
    forall k | 0 <= k < |order'| ensures Listed(after, order'[k]) {
      if k < |order| {
        var i :| 0 <= i < |tasks| && tasks[i].key == order[k];
        assert after[i].key == order'[k];
      } else {
        assert after[|tasks|].key == order'[k];
      }
    }
    forall i | 0 <= i < |after| ensures after[i].key in order' {
      if i < |tasks| {
        assert tasks[i].key in order;
      }
    }
    forall i, k, d | 0 <= i < |after| && 0 <= k < |order'| && order'[k] == after[i].key && d in after[i].dependsOn
      ensures d in order'[..k]
    {
      assert order'[..k] == order[..k];
    }
  }

  // ---- The log of completions ----

  /** Each finished task was completed once, and nothing else was. */
  ghost predicate LogFits(tasks: seq<Task>, log: seq<string>) {
    && (forall a, b :: 0 <= a < b < |log| ==> log[a] != log[b])
    && (forall key :: key in log <==> Done(tasks, key))
  }

  lemma {:induction false} DistinctCount(s: seq<string>)
    requires forall a, b :: 0 <= a < b < |s| ==> s[a] != s[b]
    ensures |set x | x in s| == |s|
  {
    if s != [] {
      var rest := s[..|s| - 1];
      DistinctCount(rest);
      assert (set x | x in s) == (set x | x in rest) + {s[|s| - 1]};
    }
  }

  function Keys(tasks: seq<Task>): (keys: seq<string>)
    ensures |keys| == |tasks| && forall i :: 0 <= i < |tasks| ==> keys[i] == tasks[i].key
  {
    seq(|tasks|, i requires 0 <= i < |tasks| => tasks[i].key)
  }

  /** A run finishes after exactly as many completions as it has tasks, added ones included. */
  lemma FinishedAfterAsManyCompletions(tasks: seq<Task>, log: seq<string>)
    requires DistinctKeys(tasks) && LogFits(tasks, log) && AllDone(tasks)
    ensures |log| == |tasks|
  {
    var keys := Keys(tasks);
    forall key ensures key in log <==> key in keys {
      if key in keys {
        var i :| 0 <= i < |keys| && keys[i] == key;
        assert tasks[i].key == key && tasks[i].state == Completed;
      }
      if key in log {
        var i :| 0 <= i < |tasks| && tasks[i].key == key && tasks[i].state == Completed;
        assert keys[i] == key;
      }
    }
    assert (set x | x in log) == (set x | x in keys);
    DistinctCount(log);
    DistinctCount(keys);
  }

  // ---- The quiet changes of the class below ----

  const INTERRUPTED: set<TaskState> := {Active}
  const UNFINISHED: set<TaskState> := {Active, Pending}

  /** The tasks once interrupted work was put back. */
  function Reset(tasks: seq<Task>): seq<Task> {
    Moved(tasks, INTERRUPTED, Pending)
  }

  /** The tasks as a hold stops them. */
  function OnHoldTasks(tasks: seq<Task>): seq<Task> {
    Moved(tasks, UNFINISHED, Stopped)
  }

  /** The tasks as a release puts them back. */
  function ReleasedTasks(tasks: seq<Task>): seq<Task> {
    Moved(tasks, {Stopped}, Pending)
  }

  lemma LogCarriesOver(tasks: seq<Task>, after: seq<Task>, log: seq<string>)
    requires LogFits(tasks, log) && forall key :: Done(after, key) <==> Done(tasks, key)
    ensures LogFits(after, log)
  {
  }

  lemma ResetKeepsRun(tasks: seq<Task>, agents: Agents, order: seq<string>, phase: Phase)
    requires RunFits(tasks, agents, order, phase)
    ensures RunFits(Reset(tasks), Cleared(agents), order, phase)
    ensures forall key :: Done(Reset(tasks), key) <==> Done(tasks, key)
    ensures Served(Reset(tasks), Cleared(agents))
  {
    QuietChangeKeepsRun(tasks, Reset(tasks), agents, Cleared(agents), order, phase, phase);
  }

  lemma HoldKeepsRun(tasks: seq<Task>, agents: Agents, order: seq<string>)
    requires RunFits(tasks, agents, order, Executing)
    ensures RunFits(OnHoldTasks(tasks), agents, order, OnHold)
    ensures forall key :: Done(OnHoldTasks(tasks), key) <==> Done(tasks, key)
  {
    QuietChangeKeepsRun(tasks, OnHoldTasks(tasks), agents, agents, order, Executing, OnHold);
  }

  lemma ReleaseKeepsRun(tasks: seq<Task>, agents: Agents, order: seq<string>)
    requires RunFits(tasks, agents, order, OnHold)
    ensures RunFits(ReleasedTasks(tasks), Cleared(agents), order, Executing)
    ensures forall key :: Done(ReleasedTasks(tasks), key) <==> Done(tasks, key)
    ensures Reset(ReleasedTasks(tasks)) == ReleasedTasks(tasks) && Cleared(Cleared(agents)) == Cleared(agents)
    ensures Served(ReleasedTasks(tasks), Cleared(agents))
  {
    QuietChangeKeepsRun(tasks, ReleasedTasks(tasks), agents, Cleared(agents), order, OnHold, Executing);
  }

  lemma CompletionExtendsLog(tasks: seq<Task>, after: seq<Task>, log: seq<string>, key: string)
    requires LogFits(tasks, log) && !Done(tasks, key)
    requires forall k :: Done(after, k) <==> Done(tasks, k) || k == key
    ensures LogFits(after, log + [key])
  {
    forall k ensures k in log + [key] <==> Done(after, k) {
    }
  }

  /** The task an agent is working on. */
  function IndexOf(tasks: seq<Task>, key: string): (r: Option<nat>)
    ensures r.Some? ==> r.value < |tasks| && tasks[r.value].key == key
    ensures r.None? ==> forall i :: 0 <= i < |tasks| ==> tasks[i].key != key
  {
    if tasks == [] then None
    else if tasks[|tasks| - 1].key == key then Some(|tasks| - 1)
    else IndexOf(tasks[..|tasks| - 1], key)
  }

  lemma KeyIsListed(tasks: seq<Task>, key: string)
    ensures IndexOf(tasks, key).Some? <==> Listed(tasks, key)
  {
  }

  /** What a result frame must carry to be believed; a frame without both numbers comes from an older peer. */
  predicate AcceptsFencing(a: Agent, attempt: Option<int>, fence: Option<int>) {
    (attempt.None? && fence.None?) || (fence == Some(a.fence) && attempt == Some(a.attempt))
  }

  datatype AddError = NotExecuting | KeyRequired | ParticipantUnavailable | ParentUnavailable | UnsupportedMode

  /** The tasks of an accepted plan, none started. */
  function PlannedTasks(plan: seq<PlanTask>): (tasks: seq<Task>)
    ensures |tasks| == |plan|
    ensures forall i :: 0 <= i < |plan| ==>
      tasks[i] == Task(plan[i].id, plan[i].participant, plan[i].mode, plan[i].dependsOn, Pending)
  {
    seq(|plan|, i requires 0 <= i < |plan| =>
      Task(plan[i].id, plan[i].participant, plan[i].mode, plan[i].dependsOn, Pending))
  }

  /** A topological order of a plan's graph orders the tasks of the plan. */
  lemma GraphOrderIsTaskOrder(plan: seq<PlanTask>, tasks: seq<Task>, g: Graph, order: seq<string>)
    requires |tasks| == |plan|
    requires forall i :: 0 <= i < |tasks| ==> tasks[i].key == plan[i].id && tasks[i].dependsOn == plan[i].dependsOn
    requires GraphOf(plan, g) && CompleteOrder(g, order)
    ensures Ordered(tasks, order)
  {
    forall i | 0 <= i < |tasks| ensures tasks[i].key in order {
      assert plan[i].id in g;
    }
    forall k | 0 <= k < |order| ensures Listed(tasks, order[k]) {
      assert order[k] in order && order[k] in g;
      var i :| 0 <= i < |plan| && plan[i].id == order[k];
      assert tasks[i].key == order[k];
    }
    forall i, k, d | 0 <= i < |tasks| && 0 <= k < |order| && order[k] == tasks[i].key && d in tasks[i].dependsOn
      ensures d in order[..k]
    {
      assert g[plan[i].id] == plan[i].dependsOn;
    }
  }

  /** An accepted plan can be carried out in some order. */
  lemma AcceptedPlanIsOrdered(plan: seq<PlanTask>) returns (order: seq<string>)
    requires Runnable(plan)
    ensures Ordered(PlannedTasks(plan), order) && DistinctKeys(PlannedTasks(plan))
  {
    var g: Graph, o: seq<string> :| GraphOf(plan, g) && CompleteOrder(g, o);
    order := o;
    GraphOrderIsTaskOrder(plan, PlannedTasks(plan), g, order);
  }

  // ---- Starting a batch ----

  /** The tasks once the first n of a batch are active. */
  ghost predicate StartedFirst(tasks: seq<Task>, after: seq<Task>, batch: seq<nat>, n: nat)
    requires n <= |batch|
  {
    SameTasks(tasks, after)
    && forall i :: 0 <= i < |tasks| ==> after[i].state == if i in batch[..n] then Active else tasks[i].state
  }

  /** The outcome of one dispatch of a batch. */
  ghost predicate Dispatched(tasks: seq<Task>, agents: Agents, after: seq<Task>, agents': Agents,
                             batch: seq<nat>, n: nat, recovery: bool)
    requires Increasing(batch, |tasks|) && n <= |batch|
  {
    && StartedFirst(tasks, after, batch, n)
    && ActiveCount(after) == ActiveCount(tasks) + n
    && agents' == AssignedAll(tasks, agents, batch, n, recovery)
  }

  lemma StartNextOfBatch(tasks: seq<Task>, after: seq<Task>, batch: seq<nat>, n: nat)
    requires Increasing(batch, |tasks|) && n < |batch| && StartedFirst(tasks, after, batch, n)
    ensures after[batch[n]] == tasks[batch[n]]
    ensures StartedFirst(tasks, Started(after, batch[n]), batch, n + 1)
  {
    assert batch[n] !in batch[..n];
    assert batch[..n + 1] == batch[..n] + [batch[n]];
    assert after[batch[n]].(state := tasks[batch[n]].state) == tasks[batch[n]];
  }

  lemma DispatchOneMore(tasks: seq<Task>, agents: Agents, after: seq<Task>, agents': Agents,
                        batch: seq<nat>, n: nat, recovery: bool)
    requires Increasing(batch, |tasks|) && n < |batch| && Dispatched(tasks, agents, after, agents', batch, n, recovery)
    requires tasks[batch[n]].state == Pending
    ensures after[batch[n]] == tasks[batch[n]]
    ensures Dispatched(tasks, agents, Started(after, batch[n]), Assigned(agents', tasks[batch[n]], recovery), batch, n + 1, recovery)
  {
    StartNextOfBatch(tasks, after, batch, n);
    StartAddsOne(after, batch[n]);
    NextAssigned(tasks, agents, batch, n, recovery);
  }

  /** The run while the first n tasks of a batch have been started. */
  ghost predicate Starting(tasks: seq<Task>, agents: Agents, order: seq<string>, after: seq<Task>, agents': Agents,
                           batch: seq<nat>, n: nat, recovery: bool)
    requires Increasing(batch, |tasks|) && n <= |batch|
  {
    && RunFits(after, agents', order, Executing)
    && Dispatched(tasks, agents, after, agents', batch, n, recovery)
    && Waiting(after, agents', batch, n)
  }

  lemma StartOneMore(tasks: seq<Task>, agents: Agents, order: seq<string>, after: seq<Task>, agents': Agents,
                     batch: seq<nat>, n: nat, recovery: bool)
    requires Increasing(batch, |tasks|) && n < |batch| && tasks[batch[n]].state == Pending
    requires Starting(tasks, agents, order, after, agents', batch, n, recovery)
    ensures after[batch[n]] == tasks[batch[n]]
    ensures Starting(tasks, agents, order, Started(after, batch[n]), Assigned(agents', tasks[batch[n]], recovery), batch, n + 1, recovery)
  {
    DispatchOneMore(tasks, agents, after, agents', batch, n, recovery);
    StartKeepsRun(after, agents', order, batch[n], recovery);
    StartKeepsWaiting(after, agents', batch, n, recovery);
  }

  lemma BatchStartsWaiting(tasks: seq<Task>, agents: Agents, order: seq<string>, batch: seq<nat>, recovery: bool)
    requires RunFits(tasks, agents, order, Executing) && SafeBatch(tasks, agents, batch)
    ensures Starting(tasks, agents, order, tasks, agents, batch, 0, recovery)
  {
  }

  /** Start every task of a batch in turn: mark it active, lease its agent, hand it over. */
  method StartBatch(tasks: seq<Task>, agents: Agents, ghost order: seq<string>, batch: seq<nat>, recovery: bool)
    returns (after: seq<Task>, agents': Agents)
    requires RunFits(tasks, agents, order, Executing) && SafeBatch(tasks, agents, batch)
    ensures RunFits(after, agents', order, Executing)
    ensures Dispatched(tasks, agents, after, agents', batch, |batch|, recovery)
  {
    after, agents' := tasks, agents;
    BatchStartsWaiting(tasks, agents, order, batch, recovery);
    for n := 0 to |batch|
      invariant Starting(tasks, agents, order, after, agents', batch, n, recovery)
    {
      var i := batch[n];
      assert Eligible(tasks, i);
      StartOneMore(tasks, agents, order, after, agents', batch, n, recovery);
      agents' := Assigned(agents', after[i], recovery);
      after := Started(after, i);
    }
  }

  lemma DispatchCompletesNothing(tasks: seq<Task>, agents: Agents, after: seq<Task>, agents': Agents,
                                 batch: seq<nat>, recovery: bool)
    requires SafeBatch(tasks, agents, batch) && Dispatched(tasks, agents, after, agents', batch, |batch|, recovery)
    ensures forall key :: Done(after, key) <==> Done(tasks, key)
    ensures AllDone(after) <==> AllDone(tasks)
  {
    assert batch[..|batch|] == batch;
    forall i | 0 <= i < |tasks| ensures after[i].state == Completed <==> tasks[i].state == Completed {
      if i in batch {
        var a :| 0 <= a < |batch| && batch[a] == i;
        assert Eligible(tasks, batch[a]);
      }
    }
    forall key ensures Done(after, key) <==> Done(tasks, key) {
      DoneCarriesOver(tasks, after, key);
      DoneCarriesOver(after, tasks, key);
    }
  }

  /** A round that starts `batch`: who it starts, what it changes, and how many it adds. */
  ghost predicate Round(tasks: seq<Task>, agents: Agents, maxConcurrency: nat,
                        after: seq<Task>, agents': Agents, batch: seq<nat>, recovery: bool)
  {
    && FillsSlots(tasks, agents, batch, Capacity(tasks, maxConcurrency))
    && Dispatched(tasks, agents, after, agents', batch, |batch|, recovery)
  }

  /** A round never raises the active count above the limit, unless it was above it already and stays there. */
  lemma RoundRespectsLimit(tasks: seq<Task>, agents: Agents, maxConcurrency: nat,
                           after: seq<Task>, agents': Agents, batch: seq<nat>, recovery: bool)
    requires Round(tasks, agents, maxConcurrency, after, agents', batch, recovery)
    ensures ActiveCount(after) <= ActiveCount(tasks) || ActiveCount(after) <= Slots(maxConcurrency)
  {
  }

  /** While tasks are left and every writer has a workspace, something is active after the round. */
  lemma RoundLeavesSomethingActive(tasks: seq<Task>, agents: Agents, order: seq<string>, maxConcurrency: nat,
                                   after: seq<Task>, agents': Agents, batch: seq<nat>, recovery: bool)
    requires RunFits(tasks, agents, order, Executing) && WritersPlaced(tasks, agents) && !AllDone(tasks)
    requires Round(tasks, agents, maxConcurrency, after, agents', batch, recovery)
    ensures ActiveCount(after) > 0
  {
    if ActiveCount(tasks) == 0 {
      if |batch| < Capacity(tasks, maxConcurrency) {
        SomethingRuns(tasks, agents, order, batch);
      }
    }
  }

  lemma BatchMeansWorkIsLeft(tasks: seq<Task>, agents: Agents, batch: seq<nat>)
    requires SafeBatch(tasks, agents, batch)
    ensures batch != [] ==> !AllDone(tasks)
  {
    if batch != [] {
      assert tasks[batch[0]].state == Pending;
    }
  }

  lemma RoundServes(tasks: seq<Task>, agents: Agents, order: seq<string>, maxConcurrency: nat,
                    after: seq<Task>, agents': Agents, batch: seq<nat>, recovery: bool)
    requires RunFits(tasks, agents, order, Executing) && Served(tasks, agents)
    requires Round(tasks, agents, maxConcurrency, after, agents', batch, recovery)
    ensures Served(after, agents') <==> !TwoForOne(tasks, agents, Capacity(tasks, maxConcurrency))
  {
    assert batch[..|batch|] == batch;
    AssignedAllHandsOut(tasks, agents, batch, |batch|, recovery);
    OneTaskEachExactlyWhen(tasks, agents, batch, Capacity(tasks, maxConcurrency));
    ServedExactlyWhenOneTaskEach(tasks, after, agents, agents', batch);
  }

  /** One round of `dispatchAdaptive`: run the next batch, or finish the run when no task is left. */
  method Advance(tasks: seq<Task>, agents: Agents, ghost order: seq<string>, maxConcurrency: nat, recovery: bool)
    returns (after: seq<Task>, agents': Agents, phase: Phase, batch: seq<nat>)
    requires RunFits(tasks, agents, order, Executing)
    ensures RunFits(after, agents', order, phase)
    ensures phase == if AllDone(tasks) then Finished else Executing
    ensures Round(tasks, agents, maxConcurrency, after, agents', batch, recovery)
    ensures forall key :: Done(after, key) <==> Done(tasks, key)
  {
    batch := SelectBatch(tasks, agents, Capacity(tasks, maxConcurrency));
    after, agents' := StartBatch(tasks, agents, order, batch, recovery);
    DispatchCompletesNothing(tasks, agents, after, agents', batch, recovery);
    phase := Executing;
    BatchMeansWorkIsLeft(tasks, agents, batch);
    if batch == [] && AllDone(tasks) {
      phase := Finished;
    }
  }

  lemma AgentWorksOnActiveTask(tasks: seq<Task>, agents: Agents, role: string)
    requires AgentsFit(tasks, agents, Executing) && DistinctKeys(tasks)
    requires role in agents && agents[role].current != ""
    ensures var r := IndexOf(tasks, agents[role].current);
      r.Some? && tasks[r.value].participant == role && tasks[r.value].state == Active
  {
    var i :| 0 <= i < |tasks| && tasks[i].key == agents[role].current
             && tasks[i].participant == role && tasks[i].state == Active;
  }

  // ---- What happens to a run ----

  datatype Snapshot = Snapshot(tasks: seq<Task>, agents: Agents, phase: Phase)

  datatype Event = Dispatch | Result(role: string) | Addition(task: Task) | Recovery | Hold | Release

  /** A round from these tasks and agents, and the run finished if no task is left. */
  ghost predicate RoundTo(tasks: seq<Task>, agents: Agents, maxConcurrency: nat, recovery: bool, to: Snapshot) {
    (exists batch :: Round(tasks, agents, maxConcurrency, to.tasks, to.agents, batch, recovery))
    && to.phase == if AllDone(tasks) then Finished else Executing
  }

  /** The tasks a result of this agent leaves. */
  function TasksAfterResult(s: Snapshot, role: string): seq<Task>
    requires role in s.agents
  {
    var i := IndexOf(s.tasks, s.agents[role].current);
    if i.None? then s.tasks else Finish(s.tasks, i.value)
  }

  function Freed(agents: Agents, role: string): Agents
    requires role in agents
  {
    agents[role := agents[role].(current := "")]
  }

  lemma ResultKeepsTasks(s: Snapshot, role: string)
    requires role in s.agents
    ensures SameTasks(s.tasks, TasksAfterResult(s, role))
  {
  }

  lemma MovedKeepsTasks(tasks: seq<Task>, from: set<TaskState>, to: TaskState)
    ensures SameTasks(tasks, Moved(tasks, from, to))
  {
  }

  lemma FreedKeepsLeases(agents: Agents, role: string, issued: seq<Lease>)
    requires role in agents && LeasesFit(agents, issued)
    ensures LeasesFit(Freed(agents, role), issued)
  {
    FreeingKeepsLeases(agents, Freed(agents, role), issued);
  }

  predicate CanResult(s: Snapshot, role: string) {
    s.phase == Executing && role in s.agents && s.agents[role].current != ""
  }

  predicate CanAdd(s: Snapshot, t: Task) {
    s.phase == Executing && t.key != "" && t.state == Pending && t.dependsOn == [] && t.participant in s.agents
    && IndexOf(s.tasks, t.key).None?
  }

  /** The result frames that count. */
  predicate AcceptsResult(s: Snapshot, role: string, key: string, attempt: Option<int>, fence: Option<int>) {
    s.phase == Executing && role in s.agents && s.agents[role].current == key
    && AcceptsFencing(s.agents[role], attempt, fence)
  }

  /** The mode of a delegated task; discussion unless it names another. */
  function AddedMode(text: string): Option<Mode> {
    if text == "" then Some(Discussion) else ParseMode(text)
  }

  /** The checks of a delegated task in their order; a key that exists adds nothing. */
  function AddOutcome(s: Snapshot, key: string, participant: string, parent: Option<string>, mode: string): Outcome<AddError> {
    if s.phase != Executing then Refused(NotExecuting)
    else if key == "" then Refused(KeyRequired)
    else if participant !in s.agents then Refused(ParticipantUnavailable)
    else if IndexOf(s.tasks, key).Some? then Ok
    else if parent.Some? && IndexOf(s.tasks, parent.value).None? then Refused(ParentUnavailable)
    else if AddedMode(mode).None? then Refused(UnsupportedMode)
    else Ok
  }

  /** A task may be delegated: the run executes, and the key exists already or what it names does. */
  ghost predicate Delegable(s: Snapshot, key: string, participant: string, parent: Option<string>, mode: string) {
    && s.phase == Executing && key != "" && participant in s.agents
    && (Listed(s.tasks, key)
        || ((parent.Some? ==> Listed(s.tasks, parent.value))
            && mode in {"", "read_only", "workspace_write", "verify", "discussion"}))
  }

  /** One task more, waiting for nothing, in the mode it names. */
  ghost predicate Delegated(before: seq<Task>, after: seq<Task>, key: string, participant: string, mode: string) {
    exists t: Task ::
      && after == before + [t] && t.key == key && t.participant == participant && t.dependsOn == [] && t.state == Pending
      && if mode == "" then t.mode == Discussion else ModeText(mode, t.mode)
  }

  lemma DelegationMeans(s: Snapshot, key: string, participant: string, parent: Option<string>, mode: string)
    ensures AddOutcome(s, key, participant, parent, mode).Ok? <==> Delegable(s, key, participant, parent, mode)
    ensures AddedMode(mode).Some? ==> if mode == "" then AddedMode(mode).value == Discussion else ModeText(mode, AddedMode(mode).value)
  {
    KeyIsListed(s.tasks, key);
    if parent.Some? { KeyIsListed(s.tasks, parent.value); }
    ModesByName(mode);
  }

  /** One event of a run, with the concurrency limit in force when it happens. */
  ghost predicate Step(s: Snapshot, e: Event, maxConcurrency: nat, to: Snapshot) {
    match e
    case Dispatch => s.phase == Executing && RoundTo(s.tasks, s.agents, maxConcurrency, false, to)
    case Result(role) =>
      CanResult(s, role) && RoundTo(TasksAfterResult(s, role), Freed(s.agents, role), maxConcurrency, false, to)
    case Addition(t) => CanAdd(s, t) && to == s.(tasks := s.tasks + [t])
    case Recovery => s.phase == Executing && RoundTo(Reset(s.tasks), Cleared(s.agents), maxConcurrency, true, to)
    case Hold => s.phase == Executing && to == s.(tasks := OnHoldTasks(s.tasks), phase := OnHold)
    case Release => s.phase == OnHold && RoundTo(ReleasedTasks(s.tasks), Cleared(s.agents), maxConcurrency, true, to)
  }

  /** The round after a completion is the step of the result, and its leases are for the run's tasks. */
  lemma ResultIsStep(before: Snapshot, role: string, maxConcurrency: nat, to: Snapshot,
                     issued: seq<Lease>, issued': seq<Lease>, batch: seq<nat>)
    requires CanResult(before, role)
    requires RoundTo(TasksAfterResult(before, role), Freed(before.agents, role), maxConcurrency, false, to)
    requires Issues(issued, issued', TasksAfterResult(before, role), batch, false)
    ensures Step(before, Result(role), maxConcurrency, to) && Issues(issued, issued', before.tasks, batch, false)
  {
    ResultKeepsTasks(before, role);
    IssuesForSameTasks(issued, issued', TasksAfterResult(before, role), before.tasks, batch, false);
  }

  /** The frame names both numbers of this lease. */
  predicate Carries(latest: Option<Lease>, attempt: Option<int>, fence: Option<int>) {
    latest.Some? && attempt.Some? && fence.Some? && attempt.value == latest.value.attempt && fence.value == latest.value.fence
  }

  /** The frame was stamped with a lease of the agent from before a recovery that gave it another one. */
  ghost predicate Renewed(issued: seq<Lease>, role: string, attempt: Option<int>, fence: Option<int>) {
    exists i, j :: 0 <= i < j < |issued| && issued[i].role == issued[j].role == role && issued[j].renewed
      && Carries(Some(issued[i]), attempt, fence)
  }

  /** What the check of the two numbers means for the leases issued so far. */
  lemma LeaseDecides(agents: Agents, issued: seq<Lease>, role: string, key: string, attempt: Option<int>, fence: Option<int>)
    requires LeasesFit(agents, issued) && key != "" && role in agents && agents[role].current == key
    ensures Latest(issued, role).Some? && Latest(issued, role).value.task == key
    ensures AcceptsFencing(agents[role], attempt, fence) <==>
      (attempt, fence) == (None, None) || Carries(Latest(issued, role), attempt, fence)
  {
    assert Holds(agents[role], Latest(issued, role));
  }

  /** The latest lease has the highest fence, and no frame with its numbers is from before a recovery. */
  lemma LatestIsHighest(issued: seq<Lease>, role: string, attempt: Option<int>, fence: Option<int>)
    requires Ascending(issued) && Carries(Latest(issued, role), attempt, fence)
    ensures !Renewed(issued, role, attempt, fence)
    ensures forall i :: 0 <= i < |issued| && issued[i].role == role ==> issued[i].fence <= fence.value
  {
    forall i | 0 <= i < |issued| && issued[i].role == role
      ensures issued[i].fence <= fence.value
      ensures forall j :: i < j < |issued| && issued[j].role == role && issued[j].renewed ==> issued[i].fence < fence.value
    {
      LatestIsLast(issued, i);
    }
  }

  class AdaptiveRun {
    var tasks: seq<Task>
    var agents: Agents
    var phase: Phase
    var maxConcurrency: nat
    ghost var order: seq<string>
    ghost var completions: seq<string>
    ghost var issued: seq<Lease>

    ghost predicate Valid()
      reads this
    {
      RunFits(tasks, agents, order, phase) && LogFits(tasks, completions) && LeasesFit(agents, issued)
    }

    function Now(): Snapshot
      reads this
    {
      Snapshot(tasks, agents, phase)
    }

    constructor (plan: seq<PlanTask>, agents: Agents, maxConcurrency: nat)
      requires Runnable(plan) && forall i :: 0 <= i < |plan| ==> plan[i].participant in agents
      requires forall r :: r in agents ==>
        agents[r].attempt == agents[r].fence && RetryKeysPast(agents[r]) && agents[r].current == ""
      ensures Valid() && tasks == PlannedTasks(plan) && this.agents == agents && this.maxConcurrency == maxConcurrency
      ensures phase == Executing && completions == [] && issued == [] && Served(tasks, agents)
    {
      ghost var o := AcceptedPlanIsOrdered(plan);
      tasks := PlannedTasks(plan);
      this.agents, phase, this.maxConcurrency := agents, Executing, maxConcurrency;
      order, completions, issued := o, [], [];
    }

    /** The next batch: a legal one, no larger than the free slots, passing over only what it must. */
    method RunnableAdaptiveTasks() returns (batch: seq<nat>)
      requires Valid()
      ensures phase != Executing ==> batch == []
      ensures phase == Executing ==> batch == FirstFree(tasks, agents, Capacity(tasks, maxConcurrency))
      ensures phase == Executing ==> Picks(tasks, agents, maxConcurrency, batch)
    {
      FirstFreeMeans(tasks, agents, maxConcurrency);
      if phase != Executing { return []; }
      batch := SelectBatch(tasks, agents, Capacity(tasks, maxConcurrency));
      BatchIsFirstFree(tasks, agents, batch, Capacity(tasks, maxConcurrency));
    }

    /** Write the three columns a dispatch changes, and the leases it issued. */
    method Put(after: seq<Task>, agents': Agents, phase': Phase, ghost leases: seq<Lease>)
      requires RunFits(after, agents', order, phase') && LogFits(after, completions) && LeasesFit(agents', leases)
      modifies this`tasks, this`agents, this`phase, this`issued
      ensures Valid() && tasks == after && agents == agents' && phase == phase' && issued == leases
    {
      tasks, agents, phase, issued := after, agents', phase', leases;
    }

    /** One round, if the run executes; a recovery round renews the leases of the agents it dispatches to. */
    method DispatchAdaptive(recovery: bool) returns (batch: seq<nat>)
      requires Valid()
      modifies this`tasks, this`agents, this`phase, this`issued
      ensures Valid()
      ensures old(phase) != Executing ==> Now() == old(Now()) && batch == []
      ensures Issues(old(issued), issued, old(tasks), batch, recovery)
      ensures old(phase) == Executing ==>
        && batch == FirstFree(old(tasks), old(agents), Capacity(old(tasks), maxConcurrency))
        && RoundTo(old(tasks), old(agents), maxConcurrency, recovery, Now())
      ensures old(phase) == Executing ==> Picks(old(tasks), old(agents), maxConcurrency, batch)
      ensures WritersApart(tasks, agents)
    {
      if phase == Executing {
        FirstFreeMeans(tasks, agents, maxConcurrency);
        batch := RunRound(recovery);
      } else {
        batch := [];
      }
      WritersAreApart(tasks, agents);
    }

    method RunRound(recovery: bool) returns (batch: seq<nat>)
      requires Valid() && phase == Executing
      modifies this`tasks, this`agents, this`phase, this`issued
      ensures Valid() && phase == if AllDone(old(tasks)) then Finished else Executing
      ensures Round(old(tasks), old(agents), maxConcurrency, tasks, agents, batch, recovery)
      ensures Issues(old(issued), issued, old(tasks), batch, recovery)
      ensures batch == FirstFree(old(tasks), old(agents), Capacity(old(tasks), maxConcurrency))
    {
      var after, agents', phase';
      after, agents', phase', batch := Advance(tasks, agents, order, maxConcurrency, recovery);
      LogCarriesOver(tasks, after, completions);
      BatchIsFirstFree(tasks, agents, batch, Capacity(tasks, maxConcurrency));
      ghost var leases := RoundIssues(tasks, agents, issued, batch, recovery);
      Put(after, agents', phase', leases);
    }

    /** Dispatch after a restart or a release: interrupted tasks go back first. */
    method RecoverDispatch() returns (batch: seq<nat>)
      requires Valid()
      modifies this`tasks, this`agents, this`phase, this`issued
      ensures Valid()
      ensures old(phase) != Executing ==>
        tasks == Reset(old(tasks)) && agents == Cleared(old(agents)) && phase == old(phase) && batch == []
      ensures Issues(old(issued), issued, old(tasks), batch, true)
      ensures old(phase) == Executing ==> Step(old(Now()), Recovery, maxConcurrency, Now())
      ensures WritersApart(tasks, agents)
    {
      ghost var before := tasks;
      PutBack();
      batch := DispatchAdaptive(true);
      MovedKeepsTasks(before, INTERRUPTED, Pending);
      IssuesForSameTasks(old(issued), issued, Reset(before), before, batch, true);
    }

    /** `resetAdaptiveActiveTasks`. */
    method PutBack()
      requires Valid()
      modifies this`tasks, this`agents, this`phase, this`issued
      ensures Valid() && Now() == Snapshot(Reset(old(tasks)), Cleared(old(agents)), old(phase)) && issued == old(issued)
    {
      ResetKeepsRun(tasks, agents, order, phase);
      LogCarriesOver(tasks, Reset(tasks), completions);
      FreeingKeepsLeases(agents, Cleared(agents), issued);
      Put(Reset(tasks), Cleared(agents), phase, issued);
    }

    /** A pause or an exhausted budget stops everything that has not completed. */
    method HoldRun()
      requires Valid()
      modifies this`tasks, this`phase
      ensures Valid()
      ensures old(phase) == Executing ==> Step(old(Now()), Hold, maxConcurrency, Now())
      ensures old(phase) != Executing ==> Now() == old(Now())
    {
      if phase != Executing { return; }
      HoldKeepsRun(tasks, agents, order);
      var after := OnHoldTasks(tasks);
      LogCarriesOver(tasks, after, completions);
      tasks, phase := after, OnHold;
    }

    /** The last hold is lifted: the stopped tasks go back and are dispatched again. */
    method ReleaseRun() returns (batch: seq<nat>)
      requires Valid() && phase == OnHold
      modifies this`tasks, this`agents, this`phase, this`issued
      ensures Valid() && Step(old(Now()), Release, maxConcurrency, Now()) && WritersApart(tasks, agents)
      ensures Issues(old(issued), issued, old(tasks), batch, true)
    {
      ghost var before := tasks;
      ReleaseKeepsRun(tasks, agents, order);
      LogCarriesOver(tasks, ReleasedTasks(tasks), completions);
      FreeingKeepsLeases(agents, Cleared(agents), issued);
      Put(ReleasedTasks(tasks), Cleared(agents), Executing, issued);
      batch := RecoverDispatch();
      MovedKeepsTasks(before, {Stopped}, Pending);
      IssuesForSameTasks(old(issued), issued, ReleasedTasks(before), before, batch, true);
    }

    method SetMaxConcurrency(n: nat)
      requires Valid()
      modifies this`maxConcurrency
      ensures Valid() && maxConcurrency == n
    {
      maxConcurrency := n;
    }

    /** A task another agent delegates while the run executes; a parent task is named by its key. */
    method AddAdaptiveTask(key: string, participant: string, parent: Option<string>, mode: string) returns (r: Outcome<AddError>)
      requires Valid()
      modifies this`tasks, this`order
      ensures Valid() && r == AddOutcome(old(Now()), key, participant, parent, mode)
      ensures r.Ok? <==> Delegable(old(Now()), key, participant, parent, mode)
      ensures r.Ok? && !Listed(old(tasks), key) ==> Delegated(old(tasks), tasks, key, participant, mode)
      ensures r.Refused? || IndexOf(old(tasks), key).Some? ==> Now() == old(Now())
      ensures r.Ok? && IndexOf(old(tasks), key).None? ==>
        Step(old(Now()), Addition(Task(key, participant, AddedMode(mode).value, [], Pending)), maxConcurrency, Now())
    {
      KeyIsListed(tasks, key);
      DelegationMeans(Now(), key, participant, parent, mode);
      if phase != Executing { return Refused(NotExecuting); }
      if key == "" { return Refused(KeyRequired); }
      if participant !in agents { return Refused(ParticipantUnavailable); }
      if IndexOf(tasks, key).Some? { return Ok; }
      if parent.Some? && IndexOf(tasks, parent.value).None? { return Refused(ParentUnavailable); }
      if AddedMode(mode).None? { return Refused(UnsupportedMode); }
      var t := Task(key, participant, AddedMode(mode).value, [], Pending);
      AdditionKeepsRun(tasks, agents, order, t);
      LogCarriesOver(tasks, tasks + [t], completions);
      PutAdded(t);
      assert Delegated(old(tasks), tasks, key, participant, mode);
      return Ok;
    }

    method PutAdded(t: Task)
      requires RunFits(tasks + [t], agents, order + [t.key], phase) && LogFits(tasks + [t], completions)
      requires LeasesFit(agents, issued)
      modifies this`tasks, this`order
      ensures Valid() && tasks == old(tasks) + [t]
    {
      order, tasks := order + [t.key], tasks + [t];
    }

    /**
     * A result frame from the device that runs the task.  It counts only while the run
     * executes, for the task its agent is working on, and with both numbers of the lease
     * that was issued to the agent last, or, from an older peer, with none.
     */
    method ReceiveResult(role: string, key: string, attempt: Option<int>, fence: Option<int>)
      returns (accepted: bool, batch: seq<nat>)
      requires Valid() && key != ""
      modifies this`tasks, this`agents, this`phase, this`completions, this`issued
      ensures Valid() && (accepted <==> AcceptsResult(old(Now()), role, key, attempt, fence))
      ensures accepted <==>
        && old(phase) == Executing && role in old(agents) && old(agents)[role].current == key
        && ((attempt, fence) == (None, None) || Carries(Latest(old(issued), role), attempt, fence))
      ensures accepted && fence.Some? ==>
        && Latest(old(issued), role).value.task == key
        && forall i :: 0 <= i < |old(issued)| && old(issued)[i].role == role ==> old(issued)[i].fence <= fence.value
      ensures Renewed(old(issued), role, attempt, fence) ==> !accepted
      ensures !accepted ==> Now() == old(Now()) && completions == old(completions)
      ensures accepted ==> Step(old(Now()), Result(role), maxConcurrency, Now()) && WritersApart(tasks, agents)
      ensures accepted ==> completions == old(completions) + [key] && key !in old(completions)
      ensures accepted && phase == Finished ==> |completions| == |tasks|
      ensures Issues(old(issued), issued, old(tasks), batch, false)
    {
      batch := [];
      if Carries(Latest(issued, role), attempt, fence) {
        LatestIsHighest(issued, role, attempt, fence);
      }
      if phase != Executing || role !in agents || agents[role].current != key { return false, []; }
      LeaseDecides(agents, issued, role, key, attempt, fence);
      if !AcceptsFencing(agents[role], attempt, fence) { return false, []; }
      ghost var before := Now();
      batch := AcceptResult(role);
      ResultIsStep(before, role, maxConcurrency, Now(), old(issued), issued, batch);
      accepted := true;
      if phase == Finished { FinishedRunCompletedAll(); }
    }

    /** What follows an accepted result: the completion, and the next round. */
    method AcceptResult(role: string) returns (batch: seq<nat>)
      requires Valid() && CanResult(Now(), role)
      modifies this`tasks, this`agents, this`phase, this`completions, this`issued
      ensures Valid() && WritersApart(tasks, agents)
      ensures RoundTo(TasksAfterResult(old(Now()), role), Freed(old(agents), role), maxConcurrency, false, Now())
      ensures completions == old(completions) + [old(agents[role]).current]
      ensures old(agents[role]).current !in old(completions)
      ensures Issues(old(issued), issued, TasksAfterResult(old(Now()), role), batch, false)
    {
      CompleteCurrent(role);
      batch := DispatchAdaptive(false);
    }

    /** A finished run has completed each of its tasks once. */
    lemma FinishedRunCompletedAll()
      requires Valid() && phase == Finished
      ensures |completions| == |tasks|
    {
      FinishedAfterAsManyCompletions(tasks, completions);
    }

    /** The current task of an agent completes and the agent becomes free. */
    method CompleteCurrent(role: string)
      requires Valid() && CanResult(Now(), role)
      modifies this`tasks, this`agents, this`completions
      ensures Valid() && tasks == TasksAfterResult(old(Now()), role) && agents == Freed(old(agents), role)
      ensures completions == old(completions) + [old(agents[role]).current]
      ensures old(agents[role]).current !in old(completions) && issued == old(issued)
    {
      var key := agents[role].current;
      AgentWorksOnActiveTask(tasks, agents, role);
      var i := IndexOf(tasks, key).value;
      CompletionKeepsRun(tasks, agents, order, i, role);
      CompletionExtendsLog(tasks, Finish(tasks, i), completions, key);
      FreedKeepsLeases(agents, role, issued);
      PutCompletion(Finish(tasks, i), Freed(agents, role), key);
    }

    /** Write what one completion changes. */
    method PutCompletion(after: seq<Task>, agents': Agents, ghost key: string)
      requires RunFits(after, agents', order, phase) && LogFits(after, completions + [key]) && LeasesFit(agents', issued)
      modifies this`tasks, this`agents, this`completions
      ensures Valid() && tasks == after && agents == agents' && completions == old(completions) + [key]
    {
      tasks, agents, completions := after, agents', completions + [key];
    }
  }
}
