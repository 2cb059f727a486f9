/**
 * Which tasks the scheduler starts next: the pass over the tasks, and the batch as the
 * first free tasks in row order.
 */
module Batches {
  import opened Scheduler

  // ---- One pass over the tasks ----

  ghost predicate WrittenBy(tasks: seq<Task>, agents: Agents, batch: seq<nat>, workspace: string)
    requires Increasing(batch, |tasks|)
  {
    exists a :: 0 <= a < |batch| && Writes(tasks[batch[a]]) && WorkspaceOf(agents, tasks[batch[a]]) == workspace
  }

  /** What the pass over the first i tasks has chosen. */
  ghost predicate Chosen(tasks: seq<Task>, agents: Agents, chosen: seq<nat>, i: nat) {
    && i <= |tasks| && SafeBatch(tasks, agents, chosen)
    && (forall a :: 0 <= a < |chosen| ==> chosen[a] < i)
    && LeavesNothingOut(tasks, agents, chosen, i)
  }

  lemma ChooseOneMore(tasks: seq<Task>, agents: Agents, chosen: seq<nat>, i: nat)
    requires i < |tasks| && Chosen(tasks, agents, chosen, i) && Eligible(tasks, i)
    requires Writes(tasks[i]) ==>
      && WorkspaceOf(agents, tasks[i]) != "" && !WorkspaceInUse(tasks, agents, WorkspaceOf(agents, tasks[i]))
      && !WrittenBy(tasks, agents, chosen, WorkspaceOf(agents, tasks[i]))
    ensures Chosen(tasks, agents, chosen + [i], i + 1)
    ensures forall w :: WrittenBy(tasks, agents, chosen + [i], w) <==>
      WrittenBy(tasks, agents, chosen, w) || (Writes(tasks[i]) && w == WorkspaceOf(agents, tasks[i]))
  {
    var more := chosen + [i];
    forall k | 0 <= k < i && Eligible(tasks, k) && k !in more ensures Excused(tasks, agents, more, k) {
      assert k !in chosen;
      ExcuseCarriesOver(tasks, agents, chosen, i, k);
    }
    assert i in more;
    forall w ensures WrittenBy(tasks, agents, more, w) <==>
      WrittenBy(tasks, agents, chosen, w) || (Writes(tasks[i]) && w == WorkspaceOf(agents, tasks[i]))
    {
      if WrittenBy(tasks, agents, chosen, w) {
        var a :| 0 <= a < |chosen| && Writes(tasks[chosen[a]]) && WorkspaceOf(agents, tasks[chosen[a]]) == w;
        assert more[a] == chosen[a];
      }
      if Writes(tasks[i]) && w == WorkspaceOf(agents, tasks[i]) {
        assert more[|chosen|] == i;
      }
    }
  }

  lemma ExcuseCarriesOver(tasks: seq<Task>, agents: Agents, chosen: seq<nat>, i: nat, k: nat)
    requires k < i < |tasks| && Increasing(chosen, |tasks|) && Increasing(chosen + [i], |tasks|)
    requires Excused(tasks, agents, chosen, k)
    ensures Excused(tasks, agents, chosen + [i], k)
  {
    var more, w := chosen + [i], WorkspaceOf(agents, tasks[k]);
    if w != "" && !WorkspaceInUse(tasks, agents, w) {
      var a :| 0 <= a < |chosen| && chosen[a] < k && Writes(tasks[chosen[a]]) && WorkspaceOf(agents, tasks[chosen[a]]) == w;
      assert more[a] == chosen[a];
    }
  }

  lemma PassOver(tasks: seq<Task>, agents: Agents, chosen: seq<nat>, i: nat)
    requires i < |tasks| && Chosen(tasks, agents, chosen, i)
    requires Eligible(tasks, i) ==>
      && Writes(tasks[i])
      && var w := WorkspaceOf(agents, tasks[i]);
         w == "" || WorkspaceInUse(tasks, agents, w) || WrittenBy(tasks, agents, chosen, w)
    ensures Chosen(tasks, agents, chosen, i + 1)
  {
    if Eligible(tasks, i) {
      assert Excused(tasks, agents, chosen, i);
    }
  }

  lemma CutKeepsExcuse(tasks: seq<Task>, agents: Agents, chosen: seq<nat>, n: nat, k: nat)
    requires Increasing(chosen, |tasks|) && 0 < n <= |chosen| && Increasing(chosen[..n], |tasks|)
    requires k < chosen[n - 1] && Excused(tasks, agents, chosen, k)
    ensures Excused(tasks, agents, chosen[..n], k)
  {
    var w := WorkspaceOf(agents, tasks[k]);
    if w != "" && !WorkspaceInUse(tasks, agents, w) {
      var a :| 0 <= a < |chosen| && chosen[a] < k && Writes(tasks[chosen[a]]) && WorkspaceOf(agents, tasks[chosen[a]]) == w;
      assert a < n && chosen[..n][a] == chosen[a];
    }
  }

  lemma CutKeepsSafe(tasks: seq<Task>, agents: Agents, chosen: seq<nat>, n: nat)
    requires SafeBatch(tasks, agents, chosen) && n <= |chosen|
    ensures SafeBatch(tasks, agents, chosen[..n])
  {
  }

  /** Cutting a batch to the free slots leaves out only tasks after the cut. */
  lemma CutLeavesNothingOut(tasks: seq<Task>, agents: Agents, chosen: seq<nat>, n: nat)
    requires Increasing(chosen, |tasks|) && 0 < n <= |chosen| && Increasing(chosen[..n], |tasks|)
    requires LeavesNothingOut(tasks, agents, chosen, |tasks|)
    ensures LeavesNothingOut(tasks, agents, chosen[..n], chosen[n - 1])
  {
    var batch := chosen[..n];
    forall k | 0 <= k < chosen[n - 1] && Eligible(tasks, k) && k !in batch ensures Excused(tasks, agents, batch, k) {
      assert forall a :: 0 <= a < n ==> batch[a] == chosen[a];
      CutKeepsExcuse(tasks, agents, chosen, n, k);
    }
  }

  /** One pass over the tasks in row order, then the cut to the free slots. */
  method SelectBatch(tasks: seq<Task>, agents: Agents, capacity: nat) returns (batch: seq<nat>)
    ensures FillsSlots(tasks, agents, batch, capacity)
  {
    var complete, busyParticipants := CompletedKeys(tasks), BusyParticipants(tasks);
    var activeWriterWorkspaces := ActiveWriterWorkspaces(tasks, agents);
    var selectedWriterWorkspaces: set<string> := {};
    var chosen: seq<nat> := [];
    for i := 0 to |tasks|
      invariant Chosen(tasks, agents, chosen, i)
      invariant forall w :: w in selectedWriterWorkspaces <==> WrittenBy(tasks, agents, chosen, w)
    {
      var t := tasks[i];
      if t.state == Pending && t.participant !in busyParticipants && forall d :: d in t.dependsOn ==> d in complete {
        assert Eligible(tasks, i);
        var workspace := WorkspaceOf(agents, t);
        if !Writes(t) {
          ChooseOneMore(tasks, agents, chosen, i);
          chosen := chosen + [i];
        } else if workspace == "" || workspace in activeWriterWorkspaces || workspace in selectedWriterWorkspaces {
          PassOver(tasks, agents, chosen, i);
        } else {
          ChooseOneMore(tasks, agents, chosen, i);
          selectedWriterWorkspaces := selectedWriterWorkspaces + {workspace};
          chosen := chosen + [i];
        }
      } else {
        assert !Eligible(tasks, i);
        PassOver(tasks, agents, chosen, i);
      }
    }
    CutToCapacity(tasks, agents, chosen, capacity);
    batch := if |chosen| <= capacity then chosen else chosen[..capacity];
  }

  lemma CutToCapacity(tasks: seq<Task>, agents: Agents, chosen: seq<nat>, capacity: nat)
    requires Chosen(tasks, agents, chosen, |tasks|)
    ensures FillsSlots(tasks, agents, if |chosen| <= capacity then chosen else chosen[..capacity], capacity)
  {
    if |chosen| > capacity {
      CutKeepsSafe(tasks, agents, chosen, capacity);
      if capacity > 0 {
        CutLeavesNothingOut(tasks, agents, chosen, capacity);
      }
    }
  }

  /** A legal batch that leaves out only what it has no slot for, in row order. */
  ghost predicate FillsSlots(tasks: seq<Task>, agents: Agents, batch: seq<nat>, capacity: nat) {
    && SafeBatch(tasks, agents, batch) && |batch| <= capacity
    && (|batch| < capacity ==> LeavesNothingOut(tasks, agents, batch, |tasks|))
    && (batch != [] ==> LeavesNothingOut(tasks, agents, batch, batch[|batch| - 1]))
  }

  // ---- The batch is determined by the tasks ----

  /** Eligible, and if it writes, in a workspace that no active and no earlier eligible task writes. */
  ghost predicate Free(tasks: seq<Task>, agents: Agents, i: nat)
    requires i < |tasks|
  {
    Eligible(tasks, i) && (Writes(tasks[i]) ==> WorkspaceFree(tasks, agents, i))
  }

  ghost predicate WorkspaceFree(tasks: seq<Task>, agents: Agents, i: nat)
    requires i < |tasks|
  {
    var w := WorkspaceOf(agents, tasks[i]);
    w != "" && !WorkspaceInUse(tasks, agents, w) && forall k :: 0 <= k < i ==> !Rivals(tasks, agents, k, w)
  }

  ghost predicate Rivals(tasks: seq<Task>, agents: Agents, k: nat, workspace: string)
    requires k < |tasks|
  {
    Eligible(tasks, k) && Writes(tasks[k]) && WorkspaceOf(agents, tasks[k]) == workspace
  }

  /** The free tasks among the first n, in row order. */
  ghost function FreeBefore(tasks: seq<Task>, agents: Agents, n: nat): (free: seq<nat>)
    requires n <= |tasks|
  {
    if n == 0 then []
    else FreeBefore(tasks, agents, n - 1) + if Free(tasks, agents, n - 1) then [n - 1] else []
  }

  ghost function FirstFree(tasks: seq<Task>, agents: Agents, capacity: nat): seq<nat> {
    var free := FreeBefore(tasks, agents, |tasks|);
    if |free| <= capacity then free else free[..capacity]
  }

  lemma {:induction false} FreeBeforeIs(tasks: seq<Task>, agents: Agents, n: nat)
    requires n <= |tasks|
    ensures Increasing(FreeBefore(tasks, agents, n), n)
    ensures forall i :: i in FreeBefore(tasks, agents, n) <==> 0 <= i < n && Free(tasks, agents, i)
  {
    if n > 0 {
      FreeBeforeIs(tasks, agents, n - 1);
    }
  }

  /** The place of a free task in the list is the number of free tasks before it. */
  lemma {:induction false} FreePlace(tasks: seq<Task>, agents: Agents, i: nat, n: nat)
    requires i <= n <= |tasks|
    ensures FreeBefore(tasks, agents, i) <= FreeBefore(tasks, agents, n)
    ensures i < n && Free(tasks, agents, i) ==>
      |FreeBefore(tasks, agents, i)| < |FreeBefore(tasks, agents, n)|
      && FreeBefore(tasks, agents, n)[|FreeBefore(tasks, agents, i)|] == i
    decreases n
  {
    if i < n {
      FreePlace(tasks, agents, i, n - 1);
    }
  }

  lemma {:induction false} IncreasingListsAgree(a: seq<nat>, b: seq<nat>, n: nat)
    requires Increasing(a, n) && Increasing(b, n) && forall i :: i in a <==> i in b
    ensures a == b
    decreases |a|
  {
    assert (a != [] ==> a[|a| - 1] in b) && (b != [] ==> b[|b| - 1] in a);
    if a != [] && b != [] {
      var x, y := a[|a| - 1], b[|b| - 1];
      assert x == y;
      var a', b' := a[..|a| - 1], b[..|b| - 1];
      assert a == a' + [x] && b == b' + [y];
      forall i ensures i in a' <==> i in b' {
        assert i in a <==> i in a' || i == x;
        assert i in b <==> i in b' || i == y;
        assert x !in a' && y !in b';
      }
      IncreasingListsAgree(a', b', n);
    }
  }

  /** Whatever fills the slots legally takes free tasks only. */
  lemma MembersAreFree(tasks: seq<Task>, agents: Agents, batch: seq<nat>, capacity: nat, a: nat)
    requires FillsSlots(tasks, agents, batch, capacity) && a < |batch|
    ensures Free(tasks, agents, batch[a])
  {
    var i, last := batch[a], batch[|batch| - 1];
    if Writes(tasks[i]) {
      var w := WorkspaceOf(agents, tasks[i]);
      forall k | 0 <= k < i ensures !Rivals(tasks, agents, k, w) {
        if k in batch {
          var b :| 0 <= b < |batch| && batch[b] == k;
          assert Writes(tasks[batch[b]]) ==> WorkspaceOf(agents, tasks[batch[b]]) != w;
        } else {
          assert Eligible(tasks, k) ==> Excused(tasks, agents, batch, k);
          if WorkspaceOf(agents, tasks[k]) == w {
            NoEarlierExcuse(tasks, agents, batch, k, a);
          }
        }
      }
    }
  }

  /** No task that a member of the batch stands in for comes before that member. */
  lemma NoEarlierExcuse(tasks: seq<Task>, agents: Agents, batch: seq<nat>, k: nat, a: nat)
    requires SafeBatch(tasks, agents, batch) && a < |batch| && k < batch[a] && Writes(tasks[batch[a]])
    requires WorkspaceOf(agents, tasks[k]) == WorkspaceOf(agents, tasks[batch[a]])
    ensures !Excused(tasks, agents, batch, k)
  {
    forall b | 0 <= b < |batch| && batch[b] < k && Writes(tasks[batch[b]])
      ensures WorkspaceOf(agents, tasks[batch[b]]) != WorkspaceOf(agents, tasks[k])
    {
      assert b < a;
    }
  }

  /** And it leaves out no free task that it could still take. */
  lemma FreeIsTaken(tasks: seq<Task>, agents: Agents, batch: seq<nat>, bound: nat, i: nat)
    requires SafeBatch(tasks, agents, batch) && bound <= |tasks| && LeavesNothingOut(tasks, agents, batch, bound)
    requires i < bound && Free(tasks, agents, i)
    ensures i in batch
  {
    if i !in batch {
      assert Excused(tasks, agents, batch, i);
      var w := WorkspaceOf(agents, tasks[i]);
      var a :| 0 <= a < |batch| && batch[a] < i && Writes(tasks[batch[a]]) && WorkspaceOf(agents, tasks[batch[a]]) == w;
      assert Rivals(tasks, agents, batch[a], w);
    }
  }

  lemma FullBatchIsFirstFree(tasks: seq<Task>, agents: Agents, batch: seq<nat>, capacity: nat, m: nat)
    requires FillsSlots(tasks, agents, batch, capacity) && m <= |tasks|
    requires forall i :: i in batch ==> i < m
    requires forall i :: 0 <= i < m && Free(tasks, agents, i) ==> i in batch
    ensures batch == FreeBefore(tasks, agents, m)
  {
    FreeBeforeIs(tasks, agents, m);
    forall i ensures i in batch <==> i in FreeBefore(tasks, agents, m) {
      if i in batch {
        var a :| 0 <= a < |batch| && batch[a] == i;
        MembersAreFree(tasks, agents, batch, capacity, a);
      }
    }
    IncreasingListsAgree(batch, FreeBefore(tasks, agents, m), |tasks|);
  }

  /** So a batch that fills the slots is the first free tasks. */
  lemma FilledIsFirstFree(tasks: seq<Task>, agents: Agents, batch: seq<nat>, capacity: nat)
    requires FillsSlots(tasks, agents, batch, capacity)
    ensures batch == FirstFree(tasks, agents, capacity)
  {
    var n := |tasks|;
    if |batch| < capacity {
      forall i | 0 <= i < n && Free(tasks, agents, i) ensures i in batch {
        FreeIsTaken(tasks, agents, batch, n, i);
      }
      FullBatchIsFirstFree(tasks, agents, batch, capacity, n);
    } else if batch != [] {
      var last := batch[|batch| - 1];
      MembersAreFree(tasks, agents, batch, capacity, |batch| - 1);
      assert last in batch;
      forall i | 0 <= i < last + 1 && Free(tasks, agents, i) ensures i in batch {
        if i < last {
          FreeIsTaken(tasks, agents, batch, last, i);
        }
      }
      FullBatchIsFirstFree(tasks, agents, batch, capacity, last + 1);
      FreePlace(tasks, agents, last + 1, n);
    }
  }

  // ---- The other direction: the first free tasks fill the slots ----

  /** Among the eligible writers of a free workspace the first one is free. */
  lemma {:induction false} FirstRivalIsFree(tasks: seq<Task>, agents: Agents, k: nat, workspace: string) returns (first: nat)
    requires k < |tasks| && Rivals(tasks, agents, k, workspace)
    requires workspace != "" && !WorkspaceInUse(tasks, agents, workspace)
    ensures first <= k && Rivals(tasks, agents, first, workspace) && Free(tasks, agents, first)
    decreases k
  {
    first := k;
    if !Free(tasks, agents, k) {
      var earlier :| 0 <= earlier < k && Rivals(tasks, agents, earlier, workspace);
      first := FirstRivalIsFree(tasks, agents, earlier, workspace);
    }
  }

  lemma FreeListIsSafe(tasks: seq<Task>, agents: Agents, n: nat)
    requires n <= |tasks|
    ensures SafeBatch(tasks, agents, FreeBefore(tasks, agents, n))
    ensures LeavesNothingOut(tasks, agents, FreeBefore(tasks, agents, n), n)
  {
    var free := FreeBefore(tasks, agents, n);
    FreeBeforeIs(tasks, agents, n);
    forall a | 0 <= a < |free| ensures Free(tasks, agents, free[a]) {
      assert free[a] in free;
    }
    forall a, b | 0 <= a < b < |free| && Writes(tasks[free[a]]) && Writes(tasks[free[b]])
      ensures WorkspaceOf(agents, tasks[free[a]]) != WorkspaceOf(agents, tasks[free[b]])
    {
      assert !Rivals(tasks, agents, free[a], WorkspaceOf(agents, tasks[free[b]]));
    }
    forall i | 0 <= i < n && Eligible(tasks, i) && i !in free ensures Excused(tasks, agents, free, i) {
      NotFreeIsExcused(tasks, agents, free, i);
    }
  }

  lemma NotFreeIsExcused(tasks: seq<Task>, agents: Agents, free: seq<nat>, i: nat)
    requires i < |tasks| && Increasing(free, |tasks|) && Eligible(tasks, i) && !Free(tasks, agents, i)
    requires forall k :: 0 <= k < i && Free(tasks, agents, k) ==> k in free
    ensures Excused(tasks, agents, free, i)
  {
    var w := WorkspaceOf(agents, tasks[i]);
    if w != "" && !WorkspaceInUse(tasks, agents, w) {
      var k :| 0 <= k < i && Rivals(tasks, agents, k, w);
      var first := FirstRivalIsFree(tasks, agents, k, w);
      var a :| 0 <= a < |free| && free[a] == first;
      assert Writes(tasks[free[a]]);
    }
  }

  /** A batch fills the slots exactly when it is the first free tasks in row order. */
  lemma BatchIsFirstFree(tasks: seq<Task>, agents: Agents, batch: seq<nat>, capacity: nat)
    ensures FillsSlots(tasks, agents, batch, capacity) <==> batch == FirstFree(tasks, agents, capacity)
  {
    var free := FreeBefore(tasks, agents, |tasks|);
    FreeListIsSafe(tasks, agents, |tasks|);
    if batch == FirstFree(tasks, agents, capacity) {
      assert forall a :: 0 <= a < |free| ==> free[a] < |tasks|;
      CutToCapacity(tasks, agents, free, capacity);
    }
    if FillsSlots(tasks, agents, batch, capacity) {
      FilledIsFirstFree(tasks, agents, batch, capacity);
    }
  }

  // ---- Two tasks for one participant ----

  /** Two free tasks of one participant, both within the first `capacity` free ones. */
  ghost predicate TwoForOne(tasks: seq<Task>, agents: Agents, capacity: nat) {
    exists i, j :: 0 <= i < j < |tasks| && Free(tasks, agents, i) && Free(tasks, agents, j)
      && tasks[i].participant == tasks[j].participant && |FreeBefore(tasks, agents, j)| < capacity
  }

  lemma TwoForOneIsInBatch(tasks: seq<Task>, agents: Agents, batch: seq<nat>, capacity: nat)
    requires batch == FirstFree(tasks, agents, capacity) && Increasing(batch, |tasks|)
    requires TwoForOne(tasks, agents, capacity)
    ensures !OneTaskEach(tasks, batch)
  {
    var n := |tasks|;
    var i, j :| 0 <= i < j < n && Free(tasks, agents, i) && Free(tasks, agents, j)
      && tasks[i].participant == tasks[j].participant && |FreeBefore(tasks, agents, j)| < capacity;
    FreePlace(tasks, agents, i, j);
    FreePlace(tasks, agents, i, n);
    FreePlace(tasks, agents, j, n);
    var a, b := |FreeBefore(tasks, agents, i)|, |FreeBefore(tasks, agents, j)|;
    assert a < b && batch[a] == i && batch[b] == j;
  }

  lemma TwoInBatchAreTwoForOne(tasks: seq<Task>, agents: Agents, batch: seq<nat>, capacity: nat, a: nat, b: nat)
    requires FillsSlots(tasks, agents, batch, capacity) && a < b < |batch|
    requires tasks[batch[a]].participant == tasks[batch[b]].participant
    ensures TwoForOne(tasks, agents, capacity)
  {
    FilledIsFirstFree(tasks, agents, batch, capacity);
    MembersAreFree(tasks, agents, batch, capacity, a);
    MembersAreFree(tasks, agents, batch, capacity, b);
    PlaceIs(tasks, agents, b, |tasks|, batch[b]);
  }

  /** A batch gives every participant one task unless two free tasks of one participant fit its slots. */
  lemma OneTaskEachExactlyWhen(tasks: seq<Task>, agents: Agents, batch: seq<nat>, capacity: nat)
    requires FillsSlots(tasks, agents, batch, capacity)
    ensures OneTaskEach(tasks, batch) <==> !TwoForOne(tasks, agents, capacity)
  {
    if !OneTaskEach(tasks, batch) {
      var a, b :| 0 <= a < b < |batch| && tasks[batch[a]].participant == tasks[batch[b]].participant;
      TwoInBatchAreTwoForOne(tasks, agents, batch, capacity, a, b);
    }
    if TwoForOne(tasks, agents, capacity) {
      FilledIsFirstFree(tasks, agents, batch, capacity);
      TwoForOneIsInBatch(tasks, agents, batch, capacity);
    }
  }

  lemma PlaceIs(tasks: seq<Task>, agents: Agents, b: nat, n: nat, j: nat)
    requires j < n <= |tasks| && b < |FreeBefore(tasks, agents, n)| && FreeBefore(tasks, agents, n)[b] == j
    ensures |FreeBefore(tasks, agents, j)| == b
  {
    FreeBeforeIs(tasks, agents, n);
    var free := FreeBefore(tasks, agents, n);
    assert j in free;
    FreePlace(tasks, agents, j, n);
    var place := |FreeBefore(tasks, agents, j)|;
    assert free[place] == free[b];
  }

  /** A single slot never strands anybody, and neither do pending tasks of different participants. */
  lemma NoTwoForOne(tasks: seq<Task>, agents: Agents, capacity: nat)
    requires capacity <= 1
      || forall i, j :: 0 <= i < j < |tasks| && tasks[i].state == Pending && tasks[j].state == Pending ==>
           tasks[i].participant != tasks[j].participant
    ensures !TwoForOne(tasks, agents, capacity)
  {
    if TwoForOne(tasks, agents, capacity) {
      var i, j :| 0 <= i < j < |tasks| && Free(tasks, agents, i) && Free(tasks, agents, j)
        && tasks[i].participant == tasks[j].participant && |FreeBefore(tasks, agents, j)| < capacity;
      FreePlace(tasks, agents, i, j);
      assert false;
    }
  }
}
