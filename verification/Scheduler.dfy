/**
 * The adaptive scheduler on the coordinating device: which tasks run next, leases for
 * the agents that run them, and how remote results complete them.
 */
module Scheduler {
  import opened Wrappers
  import opened PlannerGraph

  datatype TaskState = Pending | Active | Stopped | Completed

  datatype Task = Task(key: string, participant: string, mode: Mode, dependsOn: seq<string>, state: TaskState)

  /** A dispatch key: the task, and for a recovery dispatch the attempt it starts. */
  datatype LeaseKey = NoKey | LeaseKey(task: string, retry: Option<nat>)

  /** `current` is empty while the agent has no task. */
  datatype Agent = Agent(workspace: string, attempt: nat, fence: nat, leaseKey: LeaseKey, current: string)

  /** OnHold stands for a paused or budget-exhausted run. */
  datatype Phase = Executing | OnHold | Finished

  type Agents = map<string, Agent>

  // ---- Leases ----

  /** `issueAgentLease`: a new attempt and fence, unless the agent already holds this key; asking again changes nothing. */
  function Leased(a: Agent, key: LeaseKey): (b: Agent)
    ensures b.fence > a.fence <==> !(a.leaseKey == key && a.fence > 0)
    ensures a.attempt == a.fence ==> b.attempt == b.fence
    ensures b.fence > 0 && b.leaseKey == key && b.workspace == a.workspace && b.current == a.current
    ensures !(a.leaseKey == key && a.fence > 0) ==> Leased(b, key) == b
    decreases !(a.leaseKey == key && a.fence > 0)
  {
    if a.leaseKey == key && a.fence > 0 then a
    else a.(attempt := a.attempt + 1, fence := a.fence + 1, leaseKey := key)
  }

  function DispatchKey(a: Agent, task: string, recovery: bool): LeaseKey {
    LeaseKey(task, if recovery then Some(a.attempt + 1) else None)
  }

  /** A retry key names an attempt the agent has not reached. */
  predicate RetryKeysPast(a: Agent) {
    a.leaseKey.LeaseKey? && a.leaseKey.retry.Some? ==> a.leaseKey.retry.value <= a.attempt
  }

  /** A recovery dispatch always runs at a newer fence, so a pause of the interrupted attempt cannot touch it. */
  lemma RecoveryDispatchIsFresh(a: Agent, task: string)
    requires RetryKeysPast(a)
    ensures Leased(a, DispatchKey(a, task, true)).fence == a.fence + 1
    ensures RetryKeysPast(Leased(a, DispatchKey(a, task, true)))
  {
  }

  /**
   * Outside recovery that is so exactly when the agent's last lease was not the first
   * dispatch of the same task.  A task reset by a recovery that had no slot for it is
   * later dispatched at the fence it was interrupted at.
   */
  lemma OrdinaryDispatchIsFresh(a: Agent, task: string)
    ensures Leased(a, DispatchKey(a, task, false)).fence > a.fence <==>
      !(a.fence > 0 && a.leaseKey == LeaseKey(task, None))
  {
  }

  // ---- What the scheduler looks at ----

  ghost predicate Done(tasks: seq<Task>, key: string) {
    exists i :: 0 <= i < |tasks| && tasks[i].key == key && tasks[i].state == Completed
  }

  ghost predicate DepsDone(tasks: seq<Task>, t: Task) {
    forall d :: d in t.dependsOn ==> Done(tasks, d)
  }

  function ActiveCount(tasks: seq<Task>): (n: nat)
    ensures n <= |tasks|
    ensures n == 0 <==> forall i :: 0 <= i < |tasks| ==> tasks[i].state != Active
  {
    if tasks == [] then 0
    else ActiveCount(tasks[..|tasks| - 1]) + if tasks[|tasks| - 1].state == Active then 1 else 0
  }

  function Slots(maxConcurrency: nat): (n: nat)
    ensures n >= 1
  {
    if maxConcurrency == 0 then 1 else maxConcurrency
  }

  function Capacity(tasks: seq<Task>, maxConcurrency: nat): nat {
    if ActiveCount(tasks) >= Slots(maxConcurrency) then 0 else Slots(maxConcurrency) - ActiveCount(tasks)
  }

  ghost predicate Busy(tasks: seq<Task>, participant: string) {
    exists i :: 0 <= i < |tasks| && tasks[i].state == Active && tasks[i].participant == participant
  }

  ghost predicate Placed(tasks: seq<Task>, agents: Agents) {
    forall i :: 0 <= i < |tasks| ==> tasks[i].participant in agents
  }

  function WorkspaceOf(agents: Agents, t: Task): string {
    if t.participant in agents then agents[t.participant].workspace else ""
  }

  predicate Writes(t: Task) {
    t.mode == WorkspaceWrite
  }

  ghost predicate WorkspaceInUse(tasks: seq<Task>, agents: Agents, workspace: string) {
    exists i :: 0 <= i < |tasks| && tasks[i].state == Active && Writes(tasks[i])
      && WorkspaceOf(agents, tasks[i]) == workspace
  }

  // The three sets the scheduler collects before it looks at the pending tasks.

  function CompletedKeys(tasks: seq<Task>): (keys: set<string>)
    ensures forall key :: key in keys <==> Done(tasks, key)
  {
    set i | 0 <= i < |tasks| && tasks[i].state == Completed :: tasks[i].key
  }

  function BusyParticipants(tasks: seq<Task>): (busy: set<string>)
    ensures forall p :: p in busy <==> Busy(tasks, p)
  {
    set i | 0 <= i < |tasks| && tasks[i].state == Active :: tasks[i].participant
  }

  function ActiveWriterWorkspaces(tasks: seq<Task>, agents: Agents): (used: set<string>)
    ensures forall w :: w in used <==> WorkspaceInUse(tasks, agents, w)
  {
    set i | 0 <= i < |tasks| && tasks[i].state == Active && Writes(tasks[i]) :: WorkspaceOf(agents, tasks[i])
  }

  ghost predicate Eligible(tasks: seq<Task>, i: nat)
    requires i < |tasks|
  {
    tasks[i].state == Pending && !Busy(tasks, tasks[i].participant) && DepsDone(tasks, tasks[i])
  }

  ghost predicate Increasing(batch: seq<nat>, n: nat) {
    (forall a :: 0 <= a < |batch| ==> batch[a] < n) && (forall a, b :: 0 <= a < b < |batch| ==> batch[a] < batch[b])
  }

  /** No member of the batch, and no active task, writes where another member writes. */
  ghost predicate SafeBatch(tasks: seq<Task>, agents: Agents, batch: seq<nat>) {
    && Increasing(batch, |tasks|)
    && (forall a :: 0 <= a < |batch| ==>
          && Eligible(tasks, batch[a])
          && (Writes(tasks[batch[a]]) ==>
                && WorkspaceOf(agents, tasks[batch[a]]) != ""
                && !WorkspaceInUse(tasks, agents, WorkspaceOf(agents, tasks[batch[a]]))))
    && (forall a, b :: 0 <= a < b < |batch| && Writes(tasks[batch[a]]) && Writes(tasks[batch[b]]) ==>
          WorkspaceOf(agents, tasks[batch[a]]) != WorkspaceOf(agents, tasks[batch[b]]))
  }

  /** Why an eligible task below `bound` may be missing from the batch. */
  ghost predicate Excused(tasks: seq<Task>, agents: Agents, batch: seq<nat>, i: nat)
    requires i < |tasks| && Increasing(batch, |tasks|)
  {
    && Writes(tasks[i])
    && var w := WorkspaceOf(agents, tasks[i]);
       || w == ""
       || WorkspaceInUse(tasks, agents, w)
       || exists a :: 0 <= a < |batch| && batch[a] < i && Writes(tasks[batch[a]]) && WorkspaceOf(agents, tasks[batch[a]]) == w
  }

  ghost predicate LeavesNothingOut(tasks: seq<Task>, agents: Agents, batch: seq<nat>, bound: nat)
    requires bound <= |tasks| && Increasing(batch, |tasks|)
  {
    forall i :: 0 <= i < bound && Eligible(tasks, i) && i !in batch ==> Excused(tasks, agents, batch, i)
  }

  // ---- Invariants of a run ----

  ghost predicate DistinctKeys(tasks: seq<Task>) {
    forall i, j :: 0 <= i < j < |tasks| ==> tasks[i].key != tasks[j].key
  }

  ghost predicate Listed(tasks: seq<Task>, key: string) {
    exists i :: 0 <= i < |tasks| && tasks[i].key == key
  }

  /** `order` lists every task after its dependencies. */
  ghost predicate Ordered(tasks: seq<Task>, order: seq<string>) {
    && (forall i :: 0 <= i < |tasks| ==> tasks[i].key in order)
    && (forall k :: 0 <= k < |order| ==> Listed(tasks, order[k]))
    && (forall i, k, d :: 0 <= i < |tasks| && 0 <= k < |order| && order[k] == tasks[i].key && d in tasks[i].dependsOn ==>
          d in order[..k])
  }

  ghost predicate DepsRespected(tasks: seq<Task>) {
    forall i :: 0 <= i < |tasks| && (tasks[i].state == Active || tasks[i].state == Completed) ==> DepsDone(tasks, tasks[i])
  }

  /** At most one active writer in any workspace, and none without one. */
  ghost predicate OneWriter(tasks: seq<Task>, agents: Agents) {
    && (forall i :: 0 <= i < |tasks| && tasks[i].state == Active && Writes(tasks[i]) ==> WorkspaceOf(agents, tasks[i]) != "")
    && (forall i, j :: 0 <= i < j < |tasks| && tasks[i].state == Active && tasks[j].state == Active
                       && Writes(tasks[i]) && Writes(tasks[j]) ==>
          WorkspaceOf(agents, tasks[i]) != WorkspaceOf(agents, tasks[j]))
  }

  predicate StateFits(state: TaskState, phase: Phase) {
    match phase
    case Executing => state != Stopped
    case OnHold => state == Stopped || state == Completed
    case Finished => state == Completed
  }

  ghost predicate StatesFit(tasks: seq<Task>, phase: Phase) {
    forall i :: 0 <= i < |tasks| ==> StateFits(tasks[i].state, phase)
  }

  /** Leases stay in lockstep, and an agent's current task is one of its own active tasks. */
  ghost predicate AgentsFit(tasks: seq<Task>, agents: Agents, phase: Phase) {
    && Placed(tasks, agents)
    && forall r :: r in agents ==>
         && agents[r].attempt == agents[r].fence
         && RetryKeysPast(agents[r])
         && (agents[r].current != "" && phase == Executing ==>
               exists i :: 0 <= i < |tasks| && tasks[i].key == agents[r].current
                           && tasks[i].participant == r && tasks[i].state == Active)
  }

  /** Every active task is the current task of its agent. */
  ghost predicate Served(tasks: seq<Task>, agents: Agents) {
    forall i :: 0 <= i < |tasks| && tasks[i].state == Active && tasks[i].participant in agents ==>
      agents[tasks[i].participant].current == tasks[i].key
  }

  ghost predicate WritersPlaced(tasks: seq<Task>, agents: Agents) {
    forall i :: 0 <= i < |tasks| && Writes(tasks[i]) ==> WorkspaceOf(agents, tasks[i]) != ""
  }

  predicate AllDone(tasks: seq<Task>) {
    forall i :: 0 <= i < |tasks| ==> tasks[i].state == Completed
  }

  /** Among the unfinished tasks there is one whose dependencies are all complete. */
  lemma {:induction false} FirstUnfinished(tasks: seq<Task>, order: seq<string>, k: nat) returns (i: nat)
    requires Ordered(tasks, order) && DistinctKeys(tasks)
    requires k < |order| && !Done(tasks, order[k])
    ensures i < |tasks| && tasks[i].state != Completed && DepsDone(tasks, tasks[i])
    decreases k
  {
    i :| 0 <= i < |tasks| && tasks[i].key == order[k];
    if !DepsDone(tasks, tasks[i]) {
      var d :| d in tasks[i].dependsOn && !Done(tasks, d);
      assert d in order[..k];
      var earlier :| 0 <= earlier < k && order[earlier] == d;
      i := FirstUnfinished(tasks, order, earlier);
    }
  }

  /** With no task active, unfinished work and every writer placed, no legal batch is empty. */
  lemma SomethingRuns(tasks: seq<Task>, agents: Agents, order: seq<string>, batch: seq<nat>)
    requires Ordered(tasks, order) && DistinctKeys(tasks) && StatesFit(tasks, Executing)
    requires WritersPlaced(tasks, agents) && !AllDone(tasks) && ActiveCount(tasks) == 0
    requires SafeBatch(tasks, agents, batch) && LeavesNothingOut(tasks, agents, batch, |tasks|)
    ensures batch != []
  {
    var u :| 0 <= u < |tasks| && tasks[u].state != Completed;
    assert tasks[u].key in order;
    var k :| 0 <= k < |order| && order[k] == tasks[u].key;
    forall j | 0 <= j < |tasks| && tasks[j].key == tasks[u].key ensures j == u {
    }
    assert !Done(tasks, order[k]);
    var i := FirstUnfinished(tasks, order, k);
    PendingIsEligible(tasks, i);
    assert WorkspaceOf(agents, tasks[i]) != "" || !Writes(tasks[i]);
  }

  lemma PendingIsEligible(tasks: seq<Task>, i: nat)
    requires StatesFit(tasks, Executing) && ActiveCount(tasks) == 0
    requires i < |tasks| && tasks[i].state != Completed && DepsDone(tasks, tasks[i])
    ensures Eligible(tasks, i)
    ensures forall agents: Agents, w :: !WorkspaceInUse(tasks, agents, w)
  {
  }

  // ---- One task starting, as `dispatchAdaptive` starts it ----

  function Started(tasks: seq<Task>, i: nat): seq<Task>
    requires i < |tasks|
  {
    tasks[i := tasks[i].(state := Active)]
  }

  function Assigned(agents: Agents, t: Task, recovery: bool): Agents {
    if t.participant in agents then
      var a := agents[t.participant];
      agents[t.participant := Leased(a, DispatchKey(a, t.key, recovery)).(current := t.key)]
    else agents
  }

  lemma StartKeepsDone(tasks: seq<Task>, i: nat, key: string)
    requires i < |tasks| && tasks[i].state == Pending
    ensures Done(Started(tasks, i), key) <==> Done(tasks, key)
  {
    var after := Started(tasks, i);
    if Done(tasks, key) {
      var j :| 0 <= j < |tasks| && tasks[j].key == key && tasks[j].state == Completed;
      assert after[j] == tasks[j];
    }
    if Done(after, key) {
      var j :| 0 <= j < |after| && after[j].key == key && after[j].state == Completed;
      assert after[j] == tasks[j];
    }
  }

  lemma {:induction false} StartAddsOne(tasks: seq<Task>, i: nat)
    requires i < |tasks| && tasks[i].state == Pending
    ensures ActiveCount(Started(tasks, i)) == ActiveCount(tasks) + 1
  {
    var n := |tasks| - 1;
    if i < n {
      StartAddsOne(tasks[..n], i);
      assert Started(tasks, i)[..n] == Started(tasks[..n], i);
    } else {
      assert Started(tasks, i)[..n] == tasks[..n];
    }
  }

  /** Same tasks, possibly in other states. */
  ghost predicate SameTasks(tasks: seq<Task>, after: seq<Task>) {
    |tasks| == |after| && forall i :: 0 <= i < |tasks| ==> after[i].(state := tasks[i].state) == tasks[i]
  }

  lemma ShapeCarriesOver(tasks: seq<Task>, after: seq<Task>, order: seq<string>)
    requires SameTasks(tasks, after)
    ensures DistinctKeys(tasks) ==> DistinctKeys(after)
    ensures Ordered(tasks, order) ==> Ordered(after, order)
  {
    assert forall i :: 0 <= i < |tasks| ==> after[i].key == tasks[i].key && after[i].dependsOn == tasks[i].dependsOn;
    if Ordered(tasks, order) {
      forall k | 0 <= k < |order| ensures Listed(after, order[k]) {
        var i :| 0 <= i < |tasks| && tasks[i].key == order[k];
        assert after[i].key == order[k];
      }
      assert Ordered(after, order);
    }
  }

  ghost predicate RunFits(tasks: seq<Task>, agents: Agents, order: seq<string>, phase: Phase) {
    && DistinctKeys(tasks) && Ordered(tasks, order) && DepsRespected(tasks)
    && OneWriter(tasks, agents) && StatesFit(tasks, phase) && AgentsFit(tasks, agents, phase)
  }

  predicate Begun(t: Task) {
    t.state == Active || t.state == Completed
  }

  /** Work that has begun keeps its completed dependencies while completed tasks stay completed. */
  lemma DepsCarryOver(tasks: seq<Task>, after: seq<Task>)
    requires DepsRespected(tasks)
    requires forall key :: Done(tasks, key) ==> Done(after, key)
    requires forall i :: 0 <= i < |after| && Begun(after[i]) ==>
      (i < |tasks| && Begun(tasks[i]) && after[i].dependsOn == tasks[i].dependsOn) || DepsDone(after, after[i])
    ensures DepsRespected(after)
  {
    forall i | 0 <= i < |after| && Begun(after[i]) ensures DepsDone(after, after[i]) {
      if i < |tasks| && Begun(tasks[i]) && after[i].dependsOn == tasks[i].dependsOn {
        assert DepsDone(tasks, tasks[i]);
      }
    }
  }

  /** No new active writer, no new conflict. */
  lemma WritersCarryOver(tasks: seq<Task>, after: seq<Task>, agents: Agents, agents': Agents)
    requires OneWriter(tasks, agents)
    requires forall i :: 0 <= i < |after| && after[i].state == Active && Writes(after[i]) ==>
      && i < |tasks| && tasks[i].state == Active && Writes(tasks[i])
      && WorkspaceOf(agents', after[i]) == WorkspaceOf(agents, tasks[i])
    ensures OneWriter(after, agents')
  {
  }

  /** Starting one eligible task whose workspace is free keeps every invariant. */
  lemma StartKeepsRun(tasks: seq<Task>, agents: Agents, order: seq<string>, i: nat, recovery: bool)
    requires RunFits(tasks, agents, order, Executing)
    requires i < |tasks| && tasks[i].state == Pending && DepsDone(tasks, tasks[i])
    requires Writes(tasks[i]) ==>
      WorkspaceOf(agents, tasks[i]) != "" && !WorkspaceInUse(tasks, agents, WorkspaceOf(agents, tasks[i]))
    ensures RunFits(Started(tasks, i), Assigned(agents, tasks[i], recovery), order, Executing)
  {
    ShapeCarriesOver(tasks, Started(tasks, i), order);
    StartKeepsDeps(tasks, i);
    StartKeepsWriters(tasks, agents, i, recovery);
    StartKeepsAgents(tasks, agents, i, recovery);
  }

  lemma StartKeepsDeps(tasks: seq<Task>, i: nat)
    requires DepsRespected(tasks) && i < |tasks| && tasks[i].state == Pending && DepsDone(tasks, tasks[i])
    ensures DepsRespected(Started(tasks, i))
  {
    var after := Started(tasks, i);
    forall key ensures Done(after, key) <==> Done(tasks, key) {
      StartKeepsDone(tasks, i, key);
    }
    assert DepsDone(after, after[i]);
    DepsCarryOver(tasks, after);
  }

  lemma StartKeepsWriters(tasks: seq<Task>, agents: Agents, i: nat, recovery: bool)
    requires OneWriter(tasks, agents) && i < |tasks| && tasks[i].state == Pending
    requires Writes(tasks[i]) ==>
      WorkspaceOf(agents, tasks[i]) != "" && !WorkspaceInUse(tasks, agents, WorkspaceOf(agents, tasks[i]))
    ensures OneWriter(Started(tasks, i), Assigned(agents, tasks[i], recovery))
  {
    var after, agents' := Started(tasks, i), Assigned(agents, tasks[i], recovery);
    forall k | 0 <= k < |tasks| ensures WorkspaceOf(agents', after[k]) == WorkspaceOf(agents, tasks[k]) {
    }
    forall k | 0 <= k < |tasks| && k != i && after[k].state == Active && Writes(after[k]) && Writes(after[i])
      ensures WorkspaceOf(agents', after[k]) != WorkspaceOf(agents', after[i])
    {
    }
  }

  lemma StartKeepsAgents(tasks: seq<Task>, agents: Agents, i: nat, recovery: bool)
    requires AgentsFit(tasks, agents, Executing) && i < |tasks| && tasks[i].state == Pending
    ensures AgentsFit(Started(tasks, i), Assigned(agents, tasks[i], recovery), Executing)
  {
    var after, agents' := Started(tasks, i), Assigned(agents, tasks[i], recovery);
    forall r | r in agents' && agents'[r].current != ""
      ensures exists k :: 0 <= k < |after| && after[k].key == agents'[r].current
                          && after[k].participant == r && after[k].state == Active
    {
      if r == tasks[i].participant {
        assert after[i].key == agents'[r].current;
      } else {
        var k :| 0 <= k < |tasks| && tasks[k].key == agents[r].current && tasks[k].participant == r && tasks[k].state == Active;
        assert after[k].key == agents'[r].current;
      }
    }
  }

  /** The part of a batch that is still to be started. */
  ghost predicate Waiting(tasks: seq<Task>, agents: Agents, batch: seq<nat>, n: nat) {
    && Increasing(batch, |tasks|) && n <= |batch|
    && (forall a :: n <= a < |batch| ==>
          && tasks[batch[a]].state == Pending && DepsDone(tasks, tasks[batch[a]])
          && (Writes(tasks[batch[a]]) ==>
                && WorkspaceOf(agents, tasks[batch[a]]) != ""
                && !WorkspaceInUse(tasks, agents, WorkspaceOf(agents, tasks[batch[a]]))))
    && (forall a, b :: n <= a < b < |batch| && Writes(tasks[batch[a]]) && Writes(tasks[batch[b]]) ==>
          WorkspaceOf(agents, tasks[batch[a]]) != WorkspaceOf(agents, tasks[batch[b]]))
  }

  lemma StartKeepsWaiting(tasks: seq<Task>, agents: Agents, batch: seq<nat>, n: nat, recovery: bool)
    requires Waiting(tasks, agents, batch, n) && n < |batch|
    ensures Waiting(Started(tasks, batch[n]), Assigned(agents, tasks[batch[n]], recovery), batch, n + 1)
  {
    var i := batch[n];
    var after, agents' := Started(tasks, i), Assigned(agents, tasks[i], recovery);
    assert forall t: Task :: WorkspaceOf(agents', t) == WorkspaceOf(agents, t);
    forall key ensures Done(after, key) <==> Done(tasks, key) {
      StartKeepsDone(tasks, i, key);
    }
    forall a | n + 1 <= a < |batch| ensures after[batch[a]] == tasks[batch[a]] {
      assert batch[n] < batch[a];
    }
    forall a | n + 1 <= a < |batch| && Writes(tasks[batch[a]])
      ensures !WorkspaceInUse(after, agents', WorkspaceOf(agents, tasks[batch[a]]))
    {
    }
  }

  /** Who the started part of a batch was handed to. */
  ghost predicate HandedOut(tasks: seq<Task>, agents: Agents, agents': Agents, batch: seq<nat>, n: nat)
    requires Increasing(batch, |tasks|) && n <= |batch|
  {
    && agents'.Keys == agents.Keys
    && (forall r :: r in agents ==> agents'[r].workspace == agents[r].workspace)
    && (forall r :: r in agents && (forall a :: 0 <= a < n ==> tasks[batch[a]].participant != r) ==> agents'[r] == agents[r])
    && (forall a :: 0 <= a < n && tasks[batch[a]].participant in agents
                    && (forall b :: a < b < n ==> tasks[batch[b]].participant != tasks[batch[a]].participant) ==>
          agents'[tasks[batch[a]].participant].current == tasks[batch[a]].key)
  }

  lemma HandOutOneMore(tasks: seq<Task>, agents: Agents, agents': Agents, batch: seq<nat>, n: nat, recovery: bool)
    requires Increasing(batch, |tasks|) && n < |batch| && HandedOut(tasks, agents, agents', batch, n)
    ensures HandedOut(tasks, agents, Assigned(agents', tasks[batch[n]], recovery), batch, n + 1)
  {
    var t := tasks[batch[n]];
    var next := Assigned(agents', t, recovery);
    forall r | r in agents && (forall a :: 0 <= a < n + 1 ==> tasks[batch[a]].participant != r) ensures next[r] == agents[r] {
      assert t.participant != r && agents'[r] == agents[r];
    }
    forall a | 0 <= a < n + 1 && tasks[batch[a]].participant in agents
               && (forall b :: a < b < n + 1 ==> tasks[batch[b]].participant != tasks[batch[a]].participant)
      ensures next[tasks[batch[a]].participant].current == tasks[batch[a]].key
    {
      if a < n {
        assert t.participant != tasks[batch[a]].participant;
      }
    }
  }

  /** The agents after the first n tasks of a batch were handed out, in batch order. */
  ghost function AssignedAll(tasks: seq<Task>, agents: Agents, batch: seq<nat>, n: nat, recovery: bool): Agents
    requires Increasing(batch, |tasks|) && n <= |batch|
  {
    if n == 0 then agents
    else Assigned(AssignedAll(tasks, agents, batch, n - 1, recovery), tasks[batch[n - 1]], recovery)
  }

  lemma AssignedAllHandsOut(tasks: seq<Task>, agents: Agents, batch: seq<nat>, n: nat, recovery: bool)
    requires Increasing(batch, |tasks|) && n <= |batch|
    ensures HandedOut(tasks, agents, AssignedAll(tasks, agents, batch, n, recovery), batch, n)
  {
    NothingHandedOut(tasks, agents, batch);
    for k := 0 to n
      invariant HandedOut(tasks, agents, AssignedAll(tasks, agents, batch, k, recovery), batch, k)
    {
      HandOutOneMore(tasks, agents, AssignedAll(tasks, agents, batch, k, recovery), batch, k, recovery);
      NextAssigned(tasks, agents, batch, k, recovery);
    }
  }

  lemma NextAssigned(tasks: seq<Task>, agents: Agents, batch: seq<nat>, k: nat, recovery: bool)
    requires Increasing(batch, |tasks|) && k < |batch|
    ensures AssignedAll(tasks, agents, batch, k + 1, recovery)
      == Assigned(AssignedAll(tasks, agents, batch, k, recovery), tasks[batch[k]], recovery)
  {
  }

  lemma NothingHandedOut(tasks: seq<Task>, agents: Agents, batch: seq<nat>)
    requires Increasing(batch, |tasks|)
    ensures HandedOut(tasks, agents, agents, batch, 0)
  {
  }

  ghost predicate OneTaskEach(tasks: seq<Task>, batch: seq<nat>)
    requires Increasing(batch, |tasks|)
  {
    forall a, b :: 0 <= a < b < |batch| ==> tasks[batch[a]].participant != tasks[batch[b]].participant
  }

  /**
   * The scheduler looks at busy participants once, before the batch.  After the batch
   * every active task is its agent's current task exactly when no participant was
   * given two tasks; otherwise the earlier one is active with nobody working on it.
   */
  lemma ServedExactlyWhenOneTaskEach(tasks: seq<Task>, after: seq<Task>, agents: Agents, agents': Agents, batch: seq<nat>)
    requires SafeBatch(tasks, agents, batch) && DistinctKeys(tasks) && Placed(tasks, agents) && Served(tasks, agents)
    requires SameTasks(tasks, after)
    requires forall i :: 0 <= i < |tasks| ==> after[i].state == if i in batch then Active else tasks[i].state
    requires HandedOut(tasks, agents, agents', batch, |batch|)
    ensures Served(after, agents') <==> OneTaskEach(tasks, batch)
  {
    if OneTaskEach(tasks, batch) {
      forall i | 0 <= i < |after| && after[i].state == Active && after[i].participant in agents'
        ensures agents'[after[i].participant].current == after[i].key
      {
        if i in batch {
          var a :| 0 <= a < |batch| && batch[a] == i;
          assert agents'[tasks[batch[a]].participant].current == tasks[batch[a]].key;
        } else {
          assert Busy(tasks, tasks[i].participant);
          assert forall a :: 0 <= a < |batch| ==> tasks[batch[a]].participant != tasks[i].participant;
        }
      }
    } else {
      var a, b :| 0 <= a < b < |batch| && tasks[batch[a]].participant == tasks[batch[b]].participant;
      assert batch[a] in batch && batch[b] in batch;
      assert after[batch[a]].state == Active && after[batch[b]].state == Active;
      assert tasks[batch[a]].key != tasks[batch[b]].key;
    }
  }
}
