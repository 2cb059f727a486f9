/**
 * The leases a run has issued, in order: what the agents' numbers say about them, and
 * which of them a result may still carry.
 */
module LeaseLog {
  import opened Wrappers
  import opened Scheduler

  /** A task handed to an agent, with the numbers it was stamped with; `renewed` in a recovery. */
  datatype Lease = Lease(role: string, task: string, attempt: nat, fence: nat, renewed: bool)

  function Latest(issued: seq<Lease>, role: string): Option<Lease> {
    if issued == [] then None
    else if issued[|issued| - 1].role == role then Some(issued[|issued| - 1])
    else Latest(issued[..|issued| - 1], role)
  }

  /** Later leases of an agent have no lower fence, and one issued by a recovery has a higher one. */
  ghost predicate Ascending(issued: seq<Lease>) {
    forall i, j :: 0 <= i < j < |issued| && issued[i].role == issued[j].role ==>
      issued[i].fence <= issued[j].fence && (issued[j].renewed ==> issued[i].fence < issued[j].fence)
  }

  /** The agent's numbers are those of its latest lease, and its current task is the one that was leased. */
  predicate Holds(a: Agent, latest: Option<Lease>) {
    match latest
    case None => a.current == ""
    case Some(l) => a.attempt == l.attempt && a.fence == l.fence && (a.current != "" ==> a.current == l.task)
  }

  ghost predicate LeasesFit(agents: Agents, issued: seq<Lease>) {
    Ascending(issued) && forall r :: r in agents ==> Holds(agents[r], Latest(issued, r))
  }

  lemma {:induction false} LatestIsLast(issued: seq<Lease>, i: nat)
    requires i < |issued| && Ascending(issued)
    ensures var l := Latest(issued, issued[i].role);
      && l.Some? && l.value.role == issued[i].role && issued[i].fence <= l.value.fence
      && forall j :: i < j < |issued| && issued[j].role == issued[i].role && issued[j].renewed ==>
           issued[i].fence < l.value.fence
    decreases |issued|
  {
    var n := |issued| - 1;
    if issued[n].role != issued[i].role {
      LatestIsLast(issued[..n], i);
    } else {
      forall j | i < j < |issued| && issued[j].role == issued[i].role && issued[j].renewed
        ensures issued[i].fence < issued[n].fence
      {
        assert issued[i].fence < issued[j].fence <= issued[n].fence;
      }
    }
  }

  lemma LatestAfter(issued: seq<Lease>, l: Lease, role: string)
    ensures Latest(issued + [l], role) == if l.role == role then Some(l) else Latest(issued, role)
  {
    assert (issued + [l])[..|issued|] == issued;
  }

  /** The lease that handing a task to its agent issues, read off the agent afterwards. */
  function LeaseOf(agents: Agents, t: Task, recovery: bool): Lease
    requires t.participant in agents
  {
    Lease(t.participant, t.key, agents[t.participant].attempt, agents[t.participant].fence, recovery)
  }

  /** What the leases rely on: numbers in lockstep, and no retry key ahead of its agent. */
  ghost predicate InStep(agents: Agents) {
    forall r :: r in agents ==> agents[r].attempt == agents[r].fence && RetryKeysPast(agents[r])
  }

  lemma HandingOut(agents: Agents, issued: seq<Lease>, t: Task, recovery: bool)
    requires LeasesFit(agents, issued) && InStep(agents) && t.participant in agents
    ensures InStep(Assigned(agents, t, recovery))
    ensures LeasesFit(Assigned(agents, t, recovery), issued + [LeaseOf(Assigned(agents, t, recovery), t, recovery)])
  {
    var p, after := t.participant, Assigned(agents, t, recovery);
    var l := LeaseOf(after, t, recovery);
    if recovery {
      RecoveryDispatchIsFresh(agents[p], t.key);
    }
    assert l.fence >= agents[p].fence && (recovery ==> l.fence > agents[p].fence);
    forall i | 0 <= i < |issued| && issued[i].role == p ensures issued[i].fence <= agents[p].fence {
      LatestIsLast(issued, i);
    }
    forall r | r in after ensures Holds(after[r], Latest(issued + [l], r)) {
      LatestAfter(issued, l, r);
    }
    AscendingGrows(issued, l);
  }

  lemma AscendingGrows(issued: seq<Lease>, l: Lease)
    requires Ascending(issued)
    requires forall i :: 0 <= i < |issued| && issued[i].role == l.role ==>
      issued[i].fence <= l.fence && (l.renewed ==> issued[i].fence < l.fence)
    ensures Ascending(issued + [l])
  {
  }

  lemma StillPlaced(tasks: seq<Task>, agents: Agents, batch: seq<nat>, n: nat, recovery: bool)
    requires Increasing(batch, |tasks|) && n <= |batch| && Placed(tasks, agents)
    ensures Placed(tasks, AssignedAll(tasks, agents, batch, n, recovery))
  {
    AssignedAllHandsOut(tasks, agents, batch, n, recovery);
  }

  /** The leases a round issues for the first n tasks of its batch. */
  ghost function Handouts(tasks: seq<Task>, agents: Agents, batch: seq<nat>, n: nat, recovery: bool): (leases: seq<Lease>)
    requires Increasing(batch, |tasks|) && n <= |batch| && Placed(tasks, agents)
    ensures |leases| == n
    ensures forall k :: 0 <= k < n ==>
      leases[k].role == tasks[batch[k]].participant && leases[k].task == tasks[batch[k]].key && leases[k].renewed == recovery
  {
    if n == 0 then []
    else
      StillPlaced(tasks, agents, batch, n, recovery);
      Handouts(tasks, agents, batch, n - 1, recovery)
      + [LeaseOf(AssignedAll(tasks, agents, batch, n, recovery), tasks[batch[n - 1]], recovery)]
  }

  lemma {:induction false} RoundKeepsLeases(tasks: seq<Task>, agents: Agents, issued: seq<Lease>,
                                            batch: seq<nat>, n: nat, recovery: bool)
    requires Increasing(batch, |tasks|) && n <= |batch| && Placed(tasks, agents)
    requires LeasesFit(agents, issued) && InStep(agents)
    ensures InStep(AssignedAll(tasks, agents, batch, n, recovery))
    ensures LeasesFit(AssignedAll(tasks, agents, batch, n, recovery), issued + Handouts(tasks, agents, batch, n, recovery))
  {
    if n == 0 {
      assert issued + [] == issued;
    } else {
      var before, t := AssignedAll(tasks, agents, batch, n - 1, recovery), tasks[batch[n - 1]];
      var leases := Handouts(tasks, agents, batch, n - 1, recovery);
      RoundKeepsLeases(tasks, agents, issued, batch, n - 1, recovery);
      StillPlaced(tasks, agents, batch, n - 1, recovery);
      HandingOut(before, issued + leases, t, recovery);
      Regroup(issued, leases, [LeaseOf(Assigned(before, t, recovery), t, recovery)]);
    }
  }

  /** The leases issued on top of those before: one for each task of the batch, in its order. */
  ghost predicate Issues(before: seq<Lease>, after: seq<Lease>, tasks: seq<Task>, batch: seq<nat>, recovery: bool) {
    && before <= after && |after| == |before| + |batch|
    && forall k :: 0 <= k < |batch| ==>
         && batch[k] < |tasks|
         && after[|before| + k].role == tasks[batch[k]].participant
         && after[|before| + k].task == tasks[batch[k]].key
         && after[|before| + k].renewed == recovery
  }

  lemma IssuesForSameTasks(before: seq<Lease>, after: seq<Lease>, tasks: seq<Task>, same: seq<Task>, batch: seq<nat>, recovery: bool)
    requires Issues(before, after, tasks, batch, recovery) && SameTasks(same, tasks)
    ensures Issues(before, after, same, batch, recovery)
  {
    forall k | 0 <= k < |batch|
      ensures tasks[batch[k]].participant == same[batch[k]].participant && tasks[batch[k]].key == same[batch[k]].key
    {
      assert tasks[batch[k]].(state := same[batch[k]].state) == same[batch[k]];
    }
  }

  /** All leases after one round. */
  lemma RoundIssues(tasks: seq<Task>, agents: Agents, issued: seq<Lease>, batch: seq<nat>, recovery: bool)
    returns (after: seq<Lease>)
    requires Increasing(batch, |tasks|) && Placed(tasks, agents) && LeasesFit(agents, issued) && InStep(agents)
    ensures Issues(issued, after, tasks, batch, recovery)
    ensures LeasesFit(AssignedAll(tasks, agents, batch, |batch|, recovery), after)
  {
    var leases := Handouts(tasks, agents, batch, |batch|, recovery);
    RoundKeepsLeases(tasks, agents, issued, batch, |batch|, recovery);
    after := issued + leases;
    assert forall k :: 0 <= k < |batch| ==> after[|issued| + k] == leases[k];
  }

  lemma Regroup(a: seq<Lease>, b: seq<Lease>, c: seq<Lease>)
    ensures (a + b) + c == a + (b + c)
  {
  }

  /** Freeing agents issues nothing. */
  lemma FreeingKeepsLeases(agents: Agents, after: Agents, issued: seq<Lease>)
    requires LeasesFit(agents, issued) && after.Keys == agents.Keys
    requires forall r :: r in after ==> after[r] == agents[r] || after[r] == agents[r].(current := "")
    ensures LeasesFit(after, issued)
  {
  }

  /** The numbers of a lease are stale once a recovery has issued its agent another one. */
  lemma RenewedLeaseIsStale(agents: Agents, issued: seq<Lease>, i: nat, j: nat)
    requires LeasesFit(agents, issued) && i < j < |issued|
    requires issued[i].role == issued[j].role && issued[j].renewed && issued[i].role in agents
    ensures issued[i].fence < agents[issued[i].role].fence
  {
    LatestIsLast(issued, i);
  }
}
