/**
 * What the scheduler picks, said of the columns of tasks and agents alone.
 */
module Picking {
  import opened Wrappers
  import opened PlannerGraph
  import opened Scheduler
  import opened Batches

  /** The task waits for nothing: its participant runs none, and all it depends on is completed. */
  ghost predicate Ready(tasks: seq<Task>, i: nat)
    requires i < |tasks|
  {
    && tasks[i].state == Pending
    && (forall j :: 0 <= j < |tasks| && tasks[j].state == Active ==> tasks[j].participant != tasks[i].participant)
    && forall d :: d in tasks[i].dependsOn ==> exists j :: 0 <= j < |tasks| && tasks[j].key == d && tasks[j].state == Completed
  }

  /** The task writes in this workspace. */
  ghost predicate WritesIn(t: Task, agents: Agents, workspace: string) {
    t.mode == WorkspaceWrite && t.participant in agents && agents[t.participant].workspace == workspace
  }

  /** Ready, and a writer only where no active task writes and no ready one listed before it would. */
  ghost predicate MayRun(tasks: seq<Task>, agents: Agents, i: nat)
    requires i < |tasks|
  {
    && Ready(tasks, i)
    && (tasks[i].mode == WorkspaceWrite ==>
          && tasks[i].participant in agents
          && var w := agents[tasks[i].participant].workspace;
             && w != ""
             && (forall j :: 0 <= j < |tasks| && tasks[j].state == Active ==> !WritesIn(tasks[j], agents, w))
             && (forall k :: 0 <= k < i && Ready(tasks, k) ==> !WritesIn(tasks[k], agents, w)))
  }

  ghost function ActiveTasks(tasks: seq<Task>): set<nat> {
    set i: nat | i < |tasks| && tasks[i].state == Active
  }

  /** The first tasks that may run, in row order, as many as the limit leaves room for; a limit of zero is one. */
  ghost predicate Picks(tasks: seq<Task>, agents: Agents, limit: nat, batch: seq<nat>) {
    && (forall a :: 0 <= a < |batch| ==> batch[a] < |tasks| && MayRun(tasks, agents, batch[a]))
    && (forall a, b :: 0 <= a < b < |batch| ==> batch[a] < batch[b])
    && (batch == [] || |ActiveTasks(tasks)| + |batch| <= if limit == 0 then 1 else limit)
    && (forall i: nat :: i < |tasks| && MayRun(tasks, agents, i) && i !in batch ==>
          && |ActiveTasks(tasks)| + |batch| >= (if limit == 0 then 1 else limit)
          && forall a :: 0 <= a < |batch| ==> batch[a] < i)
  }

  /** Active writers are in different workspaces, and each is in one. */
  ghost predicate WritersApart(tasks: seq<Task>, agents: Agents) {
    && (forall i :: 0 <= i < |tasks| && tasks[i].state == Active && tasks[i].mode == WorkspaceWrite ==>
          tasks[i].participant in agents && !WritesIn(tasks[i], agents, ""))
    && (forall i, j, w :: 0 <= i < j < |tasks| && tasks[i].state == Active && tasks[j].state == Active ==>
          !(WritesIn(tasks[i], agents, w) && WritesIn(tasks[j], agents, w)))
  }

  lemma {:induction false} ActiveCountIsSize(tasks: seq<Task>)
    ensures ActiveCount(tasks) == |ActiveTasks(tasks)|
  {
    if tasks != [] {
      var n := |tasks| - 1;
      ActiveCountIsSize(tasks[..n]);
      assert ActiveTasks(tasks) == ActiveTasks(tasks[..n]) + if tasks[n].state == Active then {n} else {};
    }
  }

  lemma ReadyMeans(tasks: seq<Task>, i: nat)
    requires i < |tasks|
    ensures Eligible(tasks, i) <==> Ready(tasks, i)
  {
  }

  lemma WritingMeans(t: Task, agents: Agents, workspace: string)
    ensures workspace != "" ==> (Writes(t) && WorkspaceOf(agents, t) == workspace <==> WritesIn(t, agents, workspace))
    ensures Writes(t) <==> t.mode == WorkspaceWrite
    ensures t.participant in agents ==> WorkspaceOf(agents, t) == agents[t.participant].workspace
    ensures t.participant !in agents ==> WorkspaceOf(agents, t) == ""
  {
  }

  lemma InUseMeans(tasks: seq<Task>, agents: Agents, workspace: string)
    requires workspace != ""
    ensures WorkspaceInUse(tasks, agents, workspace) <==>
      exists j :: 0 <= j < |tasks| && tasks[j].state == Active && WritesIn(tasks[j], agents, workspace)
  {
    forall j | 0 <= j < |tasks| && tasks[j].state == Active
      ensures Writes(tasks[j]) && WorkspaceOf(agents, tasks[j]) == workspace <==> WritesIn(tasks[j], agents, workspace)
    {
      WritingMeans(tasks[j], agents, workspace);
    }
  }

  lemma MayRunMeans(tasks: seq<Task>, agents: Agents, i: nat)
    requires i < |tasks|
    ensures Free(tasks, agents, i) <==> MayRun(tasks, agents, i)
  {
    var w := WorkspaceOf(agents, tasks[i]);
    WritingMeans(tasks[i], agents, w);
    ReadyMeans(tasks, i);
    if w != "" {
      forall k | 0 <= k < i ensures Rivals(tasks, agents, k, w) <==> Ready(tasks, k) && WritesIn(tasks[k], agents, w) {
        ReadyMeans(tasks, k);
        WritingMeans(tasks[k], agents, w);
      }
      InUseMeans(tasks, agents, w);
    }
  }

  /** The first free tasks are what may run. */
  lemma FirstFreeMeans(tasks: seq<Task>, agents: Agents, limit: nat)
    ensures Picks(tasks, agents, limit, FirstFree(tasks, agents, Capacity(tasks, limit)))
  {
    var n := |tasks|;
    var free := FreeBefore(tasks, agents, n);
    var batch := FirstFree(tasks, agents, Capacity(tasks, limit));
    FreeBeforeIs(tasks, agents, n);
    ActiveCountIsSize(tasks);
    forall i: nat | i < n ensures Free(tasks, agents, i) <==> MayRun(tasks, agents, i) {
      MayRunMeans(tasks, agents, i);
    }
    assert forall a :: 0 <= a < |free| ==> free[a] in free;
    assert forall a :: 0 <= a < |batch| ==> batch[a] == free[a];
    forall i: nat | i < n && MayRun(tasks, agents, i) && i !in batch
      ensures |batch| == Capacity(tasks, limit) && forall a :: 0 <= a < |batch| ==> batch[a] < i
    {
      assert i in free;
      var b :| 0 <= b < |free| && free[b] == i;
      assert b >= |batch|;
    }
  }

  lemma WritersAreApart(tasks: seq<Task>, agents: Agents)
    requires OneWriter(tasks, agents)
    ensures WritersApart(tasks, agents)
  {
    forall t: Task, w: string ensures WritesIn(t, agents, w) ==> Writes(t) && WorkspaceOf(agents, t) == w {
      WritingMeans(t, agents, w);
    }
    forall i | 0 <= i < |tasks| && tasks[i].state == Active && tasks[i].mode == WorkspaceWrite
      ensures tasks[i].participant in agents && !WritesIn(tasks[i], agents, "")
    {
      WritingMeans(tasks[i], agents, "");
    }
  }
}
