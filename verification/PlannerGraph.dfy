/**
 * Validation of the task graph a planner proposes: item checks, dependency checks
 * and the depth-first search that rejects cyclic graphs.
 */
module PlannerGraph {
  import opened Wrappers

  /** Each task with the tasks it depends on. */
  type Graph = map<string, seq<string>>

  ghost predicate Closed(g: Graph) {
    forall id, d :: id in g && d in g[id] ==> d in g
  }

  /** `path` follows dependencies: each task depends on the next one. */
  ghost predicate Path(g: Graph, path: seq<string>) {
    forall i :: 0 <= i < |path| - 1 ==> path[i] in g && path[i + 1] in g[path[i]]
  }

  ghost predicate Cycle(g: Graph, path: seq<string>) {
    |path| >= 2 && path[0] == path[|path| - 1] && Path(g, path)
  }

  ghost predicate Cyclic(g: Graph) {
    exists path :: Cycle(g, path)
  }

  /** Every listed task comes after everything it depends on, and is listed once. */
  ghost predicate Topological(g: Graph, order: seq<string>) {
    && (forall i :: 0 <= i < |order| ==> order[i] in g)
    && (forall i, d :: 0 <= i < |order| && d in g[order[i]] ==> d in order[..i])
    && (forall i, j :: 0 <= i < j < |order| ==> order[i] != order[j])
  }

  ghost predicate CompleteOrder(g: Graph, order: seq<string>) {
    Topological(g, order) && forall id :: id in g ==> id in order
  }

  /** Along a path the position in a topological order falls with every step. */
  lemma {:induction false} PathDescends(g: Graph, order: seq<string>, path: seq<string>, from: nat) returns (to: nat)
    requires Topological(g, order) && Path(g, path) && path != []
    requires from < |order| && order[from] == path[0]
    ensures to < |order| && order[to] == path[|path| - 1] && to + |path| - 1 <= from
  {
    if |path| == 1 {
      return from;
    }
    assert path[1] in order[..from];
    var next :| 0 <= next < from && order[next] == path[1];
    var rest := path[1..];
    assert forall i :: 0 <= i < |rest| ==> rest[i] == path[i + 1];
    to := PathDescends(g, order, rest, next);
  }

  lemma OrderedGraphHasNoCycle(g: Graph, order: seq<string>)
    requires Closed(g) && CompleteOrder(g, order)
    ensures !Cyclic(g)
  {
    if path :| Cycle(g, path) {
      assert path[0] in g;
      var from :| 0 <= from < |order| && order[from] == path[0];
      var to := PathDescends(g, order, path, from);
      assert false;
    }
  }

  lemma OrderGrows(g: Graph, order: seq<string>, id: string)
    requires Topological(g, order) && id in g && id !in order
    requires forall k :: 0 <= k < |g[id]| ==> g[id][k] in order
    ensures Topological(g, order + [id])
  {
    var more := order + [id];
    forall i, d | 0 <= i < |more| && d in g[more[i]] ensures d in more[..i] {
      assert more[..i] == order[..i];
      if i == |order| {
        assert order[..i] == order;
      }
    }
  }

  /** The search state: the two sets of the program, and the orders they were filled in. */
  class GraphSearch {
    const graph: Graph
    var visiting: set<string>
    var visited: set<string>
    ghost var stack: seq<string>
    ghost var order: seq<string>

    ghost predicate Valid()
      reads this
    {
      && Closed(graph)
      && (forall id :: id in visiting <==> id in stack)
      && (forall id :: id in visited <==> id in order)
      && visiting !! visited && visiting <= graph.Keys
      && Path(graph, stack)
      && (forall i, j :: 0 <= i < j < |stack| ==> stack[i] != stack[j])
      && Topological(graph, order)
    }

    constructor (graph: Graph)
      requires Closed(graph)
      ensures Valid() && this.graph == graph && visiting == {} && stack == [] && order == []
    {
      this.graph := graph;
      visiting, visited, stack, order := {}, {}, [], [];
    }

    /** Visit one task; false stands for the thrown cycle error. */
    method Visit(id: string) returns (ok: bool)
      requires Valid() && id in graph
      requires stack == [] || (stack[|stack| - 1] in graph && id in graph[stack[|stack| - 1]])
      modifies this
      ensures ok ==> Valid() && stack == old(stack) && visiting == old(visiting)
      ensures ok ==> id in visited && old(visited) <= visited
      ensures !ok ==> Cyclic(graph)
      decreases graph.Keys - visiting
    {
      if id in visiting {
        ghost var k :| 0 <= k < |stack| && stack[k] == id;
        assert Cycle(graph, stack[k..] + [id]);
        return false;
      }
      if id in visited { return true; }
      ghost var entered := stack;
      visiting := visiting + {id};
      stack := stack + [id];
      for i := 0 to |graph[id]|
        invariant Valid() && stack == entered + [id] && visiting == old(visiting) + {id}
        invariant old(visited) <= visited
        invariant forall j :: 0 <= j < i ==> graph[id][j] in visited
      {
        var fine := Visit(graph[id][i]);
        if !fine { return false; }
      }
      visiting := visiting - {id};
      stack := entered;
      visited := visited + {id};
      OrderGrows(graph, order, id);
      order := order + [id];
      return true;
    }
  }

  /** Visit every task of the plan. */
  method AcceptsGraph(graph: Graph, ids: seq<string>) returns (ok: bool, ghost order: seq<string>)
    requires Closed(graph) && forall id :: id in ids <==> id in graph
    ensures ok <==> !Cyclic(graph)
    ensures ok ==> CompleteOrder(graph, order)
  {
    var search := new GraphSearch(graph);
    for i := 0 to |ids|
      invariant search.Valid() && search.graph == graph && search.stack == []
      invariant forall j :: 0 <= j < i ==> ids[j] in search.visited
    {
      var fine := search.Visit(ids[i]);
      if !fine { return false, []; }
    }
    OrderedGraphHasNoCycle(graph, search.order);
    return true, search.order;
  }

  // ---- Item checks ----

  datatype Mode = ReadOnly | WorkspaceWrite | Verify | Discussion

  /** A proposed task after its texts were trimmed, cut and put in lower case. */
  datatype RawTask = RawTask(id: string, participant: string, mode: string, dependsOn: seq<string>)

  datatype PlanTask = PlanTask(id: string, participant: string, mode: Mode, dependsOn: seq<string>)

  datatype Fault = InvalidId | DuplicateId | UnknownParticipant | InvalidMode

  datatype PlanError =
    | TaskCount
    | TaskFault(index: nat, fault: Fault)
    | SelfDependency(task: string)
    | UnknownDependency(task: string, dependency: string)
    | CyclicGraph

  datatype PlanResult = Accepted(tasks: seq<PlanTask>) | Rejected(error: PlanError)

  const MAX_TASKS := 24

  predicate IdChar(c: char) {
    'a' <= c <= 'z' || '0' <= c <= '9' || c == '_' || c == '-'
  }

  predicate TaskId(s: string) {
    1 <= |s| <= 64 && 'a' <= s[0] <= 'z' && forall i :: 0 <= i < |s| ==> IdChar(s[i])
  }

  function ParseMode(text: string): Option<Mode> {
    match text
    case "" => Some(ReadOnly)
    case "read_only" => Some(ReadOnly)
    case "workspace_write" => Some(WorkspaceWrite)
    case "verify" => Some(Verify)
    case "discussion" => Some(Discussion)
    case _ => None
  }

  /** The first occurrence of each dependency. */
  function Unique(ids: seq<string>): (u: seq<string>)
    ensures forall id :: id in u <==> id in ids
    ensures forall i, j :: 0 <= i < j < |u| ==> u[i] != u[j]
  {
    if ids == [] then []
    else
      var before := Unique(ids[..|ids| - 1]);
      var last := ids[|ids| - 1];
      assert ids == ids[..|ids| - 1] + [last];
      if last in before then before else before + [last]
  }

  /** What is wrong with item `i`, given the items before it. */
  function FaultAt(source: seq<RawTask>, participants: set<string>, i: nat): Option<Fault>
    requires i < |source|
  {
    if !TaskId(source[i].id) then Some(InvalidId)
    else if exists j :: 0 <= j < i && source[j].id == source[i].id then Some(DuplicateId)
    else if source[i].participant !in participants then Some(UnknownParticipant)
    else if ParseMode(source[i].mode).None? then Some(InvalidMode)
    else None
  }

  predicate Itemised(source: seq<RawTask>, participants: set<string>) {
    1 <= |source| <= MAX_TASKS && forall i :: 0 <= i < |source| ==> FaultAt(source, participants, i).None?
  }

  /** The plan a list of valid items stands for. */
  function PlanOf(source: seq<RawTask>, participants: set<string>): seq<PlanTask>
    requires Itemised(source, participants)
  {
    seq(|source|, i requires 0 <= i < |source| =>
      assert FaultAt(source, participants, i).None?;
      PlanTask(source[i].id, source[i].participant, ParseMode(source[i].mode).value, Unique(source[i].dependsOn)))
  }

  predicate Known(tasks: seq<PlanTask>) {
    forall i, d :: 0 <= i < |tasks| && d in tasks[i].dependsOn ==>
      d != tasks[i].id && exists j :: 0 <= j < |tasks| && tasks[j].id == d
  }

  predicate DistinctIds(tasks: seq<PlanTask>) {
    forall i, j :: 0 <= i < j < |tasks| ==> tasks[i].id != tasks[j].id
  }

  /** `g` lists exactly the tasks with their dependencies. */
  ghost predicate GraphOf(tasks: seq<PlanTask>, g: Graph) {
    && (forall i :: 0 <= i < |tasks| ==> tasks[i].id in g && g[tasks[i].id] == tasks[i].dependsOn)
    && (forall id :: id in g ==> exists i :: 0 <= i < |tasks| && tasks[i].id == id)
  }

  /** An accepted plan: distinct known ids, and an order in which it can be carried out. */
  ghost predicate Runnable(tasks: seq<PlanTask>) {
    && DistinctIds(tasks) && Known(tasks)
    && exists g: Graph, order: seq<string> :: GraphOf(tasks, g) && CompleteOrder(g, order)
  }

  /** The item loop: check each proposed task and collect its id. */
  method NormalizeItems(source: seq<RawTask>, participants: set<string>) returns (r: PlanResult)
    requires 1 <= |source| <= MAX_TASKS
    ensures r.Accepted? <==> Itemised(source, participants)
    ensures r.Accepted? ==>
      Itemised(source, participants) && r.tasks == PlanOf(source, participants) && DistinctIds(r.tasks)
    ensures r.Rejected? ==>
      && r.error.TaskFault? && r.error.index < |source|
      && FaultAt(source, participants, r.error.index) == Some(r.error.fault)
      && forall j :: 0 <= j < r.error.index ==> FaultAt(source, participants, j).None?
  {
    var taskIds: set<string> := {};
    var tasks: seq<PlanTask> := [];
    for i := 0 to |source|
      invariant |tasks| == i
      invariant forall j :: 0 <= j < i ==>
        && FaultAt(source, participants, j).None?
        && tasks[j] == PlanTask(source[j].id, source[j].participant, ParseMode(source[j].mode).value,
                                Unique(source[j].dependsOn))
      invariant forall id :: id in taskIds <==> exists j :: 0 <= j < i && source[j].id == id
      invariant DistinctIds(tasks)
    {
      var item := source[i];
      if !TaskId(item.id) {
        assert FaultAt(source, participants, i) == Some(InvalidId);
        return Rejected(TaskFault(i, InvalidId));
      }
      if item.id in taskIds {
        assert FaultAt(source, participants, i) == Some(DuplicateId);
        return Rejected(TaskFault(i, DuplicateId));
      }
      taskIds := taskIds + {item.id};
      if item.participant !in participants {
        assert FaultAt(source, participants, i) == Some(UnknownParticipant);
        return Rejected(TaskFault(i, UnknownParticipant));
      }
      var mode := ParseMode(item.mode);
      if mode.None? {
        assert FaultAt(source, participants, i) == Some(InvalidMode);
        return Rejected(TaskFault(i, InvalidMode));
      }
      tasks := tasks + [PlanTask(item.id, item.participant, mode.value, Unique(item.dependsOn))];
    }
    return Accepted(tasks);
  }

  /** The error names a dependency that is really wrong. */
  ghost predicate Blames(tasks: seq<PlanTask>, e: PlanError) {
    exists i :: 0 <= i < |tasks| &&
      match e
      case SelfDependency(t) => t == tasks[i].id && t in tasks[i].dependsOn
      case UnknownDependency(t, d) =>
        t == tasks[i].id && d in tasks[i].dependsOn && forall j :: 0 <= j < |tasks| ==> tasks[j].id != d
      case _ => false
  }

  /** The dependency loop: no task depends on itself or on a task the plan does not have. */
  method CheckDependencies(tasks: seq<PlanTask>) returns (problem: Option<PlanError>)
    ensures problem.None? <==> Known(tasks)
    ensures problem.Some? ==> Blames(tasks, problem.value)
  {
    for i := 0 to |tasks|
      invariant forall k, d :: 0 <= k < i && d in tasks[k].dependsOn ==>
        d != tasks[k].id && exists j :: 0 <= j < |tasks| && tasks[j].id == d
    {
      if tasks[i].id in tasks[i].dependsOn { return Some(SelfDependency(tasks[i].id)); }
      for k := 0 to |tasks[i].dependsOn|
        invariant forall m :: 0 <= m < k ==> exists j :: 0 <= j < |tasks| && tasks[j].id == tasks[i].dependsOn[m]
      {
        var d := tasks[i].dependsOn[k];
        if !exists j :: 0 <= j < |tasks| && tasks[j].id == d {
          assert d in tasks[i].dependsOn;
          return Some(UnknownDependency(tasks[i].id, d));
        }
      }
    }
    return None;
  }

  /** The map from task id to dependencies. */
  method IndexTasks(tasks: seq<PlanTask>) returns (g: Graph, ids: seq<string>)
    requires DistinctIds(tasks)
    ensures GraphOf(tasks, g)
    ensures |ids| == |tasks| && forall i :: 0 <= i < |tasks| ==> ids[i] == tasks[i].id
  {
    g, ids := map[], [];
    for i := 0 to |tasks|
      invariant GraphOf(tasks[..i], g)
      invariant |ids| == i && forall j :: 0 <= j < i ==> ids[j] == tasks[j].id
    {
      GraphGrows(tasks[..i], g, tasks[i], g[tasks[i].id := tasks[i].dependsOn]);
      g := g[tasks[i].id := tasks[i].dependsOn];
      ids := ids + [tasks[i].id];
      assert tasks[..i] + [tasks[i]] == tasks[..i + 1];
    }
    assert tasks[..|tasks|] == tasks;
  }

  lemma GraphGrows(tasks: seq<PlanTask>, g: Graph, t: PlanTask, g': Graph)
    requires GraphOf(tasks, g) && g' == g[t.id := t.dependsOn]
    requires forall i :: 0 <= i < |tasks| ==> tasks[i].id != t.id
    ensures GraphOf(tasks + [t], g')
  {
    var more := tasks + [t];
    forall id | id in g' ensures exists i :: 0 <= i < |more| && more[i].id == id {
      if id == t.id {
        assert more[|tasks|].id == id;
      } else {
        var i :| 0 <= i < |tasks| && tasks[i].id == id;
        assert more[i].id == id;
      }
    }
  }

  // ---- What acceptance means for the list that was proposed ----

  /** The text of a mode, as a proposal names it; no text means reading only. */
  predicate ModeText(text: string, mode: Mode) {
    match mode
    case ReadOnly => text == "" || text == "read_only"
    case WorkspaceWrite => text == "workspace_write"
    case Verify => text == "verify"
    case Discussion => text == "discussion"
  }

  /** A letter and up to 63 letters, digits, underscores and hyphens. */
  predicate Identifier(s: string) {
    && 0 < |s| <= 64 && 'a' <= s[0] <= 'z'
    && forall c :: c in s ==> 'a' <= c <= 'z' || '0' <= c <= '9' || c == '_' || c == '-'
  }

  ghost predicate WellFormedItem(source: seq<RawTask>, participants: set<string>, i: nat)
    requires i < |source|
  {
    && Identifier(source[i].id) && (forall j :: 0 <= j < i ==> source[j].id != source[i].id)
    && source[i].participant in participants && exists mode :: ModeText(source[i].mode, mode)
  }

  /** Every dependency is another task of the list. */
  ghost predicate DependsWithin(source: seq<RawTask>) {
    forall i, d :: 0 <= i < |source| && d in source[i].dependsOn ==> d != source[i].id && Proposed(source, d)
  }

  ghost predicate Proposed(source: seq<RawTask>, id: string) {
    exists j :: 0 <= j < |source| && source[j].id == id
  }

  ghost predicate DependsOn(source: seq<RawTask>, id: string, d: string) {
    exists i :: 0 <= i < |source| && source[i].id == id && d in source[i].dependsOn
  }

  /** Tasks that depend on each other in a circle. */
  ghost predicate Circle(source: seq<RawTask>, path: seq<string>) {
    && |path| >= 2 && path[0] == path[|path| - 1]
    && forall k :: 0 <= k < |path| - 1 ==> DependsOn(source, path[k], path[k + 1])
  }

  ghost predicate Circular(source: seq<RawTask>) {
    exists path :: Circle(source, path)
  }

  /** The plan says what was proposed: the same tasks in order, their modes by name, each dependency once. */
  ghost predicate Says(tasks: seq<PlanTask>, source: seq<RawTask>) {
    && |tasks| == |source|
    && forall i :: 0 <= i < |source| ==>
         && tasks[i].id == source[i].id && tasks[i].participant == source[i].participant
         && ModeText(source[i].mode, tasks[i].mode)
         && (forall d :: d in tasks[i].dependsOn <==> d in source[i].dependsOn)
         && (forall a, b :: 0 <= a < b < |tasks[i].dependsOn| ==> tasks[i].dependsOn[a] != tasks[i].dependsOn[b])
  }

  lemma ModesByName(text: string)
    ensures ParseMode(text).Some? ==> ModeText(text, ParseMode(text).value)
    ensures ParseMode(text).None? ==> forall mode :: !ModeText(text, mode)
  {
  }

  lemma ItemMeans(source: seq<RawTask>, participants: set<string>, i: nat)
    requires i < |source|
    ensures FaultAt(source, participants, i).None? <==> WellFormedItem(source, participants, i)
  {
    ModesByName(source[i].mode);
    var id := source[i].id;
    assert TaskId(id) <==> Identifier(id) by {
      assert forall k :: 0 <= k < |id| ==> id[k] in id;
    }
  }

  /** What the named fault says about an item. */
  ghost predicate FaultSays(source: seq<RawTask>, participants: set<string>, i: nat, fault: Fault)
    requires i < |source|
  {
    match fault
    case InvalidId => !Identifier(source[i].id)
    case DuplicateId => exists j :: 0 <= j < i && source[j].id == source[i].id
    case UnknownParticipant => source[i].participant !in participants
    case InvalidMode => forall mode :: !ModeText(source[i].mode, mode)
  }

  lemma FaultMeans(source: seq<RawTask>, participants: set<string>, i: nat)
    requires i < |source|
    ensures FaultAt(source, participants, i).Some? ==> FaultSays(source, participants, i, FaultAt(source, participants, i).value)
  {
    ModesByName(source[i].mode);
    assert forall k :: 0 <= k < |source[i].id| ==> source[i].id[k] in source[i].id;
  }

  lemma ItemsMean(source: seq<RawTask>, participants: set<string>)
    ensures Itemised(source, participants) <==>
      1 <= |source| <= 24 && forall i :: 0 <= i < |source| ==> WellFormedItem(source, participants, i)
  {
    forall i | 0 <= i < |source| ensures FaultAt(source, participants, i).None? <==> WellFormedItem(source, participants, i) {
      ItemMeans(source, participants, i);
    }
  }

  lemma PlanSays(source: seq<RawTask>, participants: set<string>)
    requires Itemised(source, participants)
    ensures Says(PlanOf(source, participants), source)
  {
    forall i | 0 <= i < |source| ensures ModeText(source[i].mode, PlanOf(source, participants)[i].mode) {
      assert FaultAt(source, participants, i).None?;
      ModesByName(source[i].mode);
    }
  }

  lemma KnownMeans(source: seq<RawTask>, tasks: seq<PlanTask>)
    requires Says(tasks, source)
    ensures Known(tasks) <==> DependsWithin(source)
  {
    if Known(tasks) {
      forall i, d | 0 <= i < |source| && d in source[i].dependsOn ensures d != source[i].id && Proposed(source, d) {
        assert d in tasks[i].dependsOn;
        var j :| 0 <= j < |tasks| && tasks[j].id == d;
        assert source[j].id == d;
      }
    }
    if DependsWithin(source) {
      forall i, d | 0 <= i < |tasks| && d in tasks[i].dependsOn
        ensures d != tasks[i].id && exists j :: 0 <= j < |tasks| && tasks[j].id == d
      {
        assert d in source[i].dependsOn && Proposed(source, d);
        var j :| 0 <= j < |source| && source[j].id == d;
        assert tasks[j].id == d;
      }
    }
  }

  lemma EdgeMeans(source: seq<RawTask>, tasks: seq<PlanTask>, g: Graph, id: string, d: string)
    requires Says(tasks, source) && GraphOf(tasks, g)
    ensures (id in g && d in g[id]) <==> DependsOn(source, id, d)
  {
    if id in g && d in g[id] {
      var i :| 0 <= i < |tasks| && tasks[i].id == id;
      assert source[i].id == id && d in source[i].dependsOn;
    }
  }

  lemma CircleIsCycle(source: seq<RawTask>, tasks: seq<PlanTask>, g: Graph, path: seq<string>)
    requires Says(tasks, source) && GraphOf(tasks, g)
    ensures Cycle(g, path) <==> Circle(source, path)
  {
    if Cycle(g, path) {
      forall k | 0 <= k < |path| - 1 ensures DependsOn(source, path[k], path[k + 1]) {
        EdgeMeans(source, tasks, g, path[k], path[k + 1]);
      }
    }
    if Circle(source, path) {
      forall k | 0 <= k < |path| - 1 ensures path[k] in g && path[k + 1] in g[path[k]] {
        EdgeMeans(source, tasks, g, path[k], path[k + 1]);
      }
    }
  }

  lemma CyclicMeans(source: seq<RawTask>, tasks: seq<PlanTask>, g: Graph)
    requires Says(tasks, source) && GraphOf(tasks, g)
    ensures Cyclic(g) <==> Circular(source)
  {
    forall path ensures Cycle(g, path) <==> Circle(source, path) {
      CircleIsCycle(source, tasks, g, path);
    }
  }

  /** A named dependency is of a listed task, on itself or on none of the list. */
  ghost predicate DependencyFault(source: seq<RawTask>, e: PlanError) {
    match e
    case SelfDependency(t) => DependsOn(source, t, t)
    case UnknownDependency(t, d) => DependsOn(source, t, d) && !Proposed(source, d)
    case _ => true
  }

  lemma BlameMeans(source: seq<RawTask>, tasks: seq<PlanTask>, e: PlanError)
    requires Says(tasks, source) && Blames(tasks, e)
    ensures DependencyFault(source, e)
  {
  }

  /**
   * The whole validator.  A plan is accepted exactly when its items are well formed, its
   * dependencies within the list and without a circle; it is rejected as cyclic exactly
   * when only the last of these fails; and an accepted plan says what was proposed and
   * has an order in which every task follows its dependencies.
   */
  method NormalizeAdaptivePlan(source: seq<RawTask>, participants: set<string>) returns (r: PlanResult)
    ensures r.Accepted? <==>
      && 1 <= |source| <= 24 && (forall i :: 0 <= i < |source| ==> WellFormedItem(source, participants, i))
      && DependsWithin(source) && !Circular(source)
    ensures r == Rejected(CyclicGraph) <==>
      && 1 <= |source| <= 24 && (forall i :: 0 <= i < |source| ==> WellFormedItem(source, participants, i))
      && DependsWithin(source) && Circular(source)
    ensures r.Accepted? ==> Says(r.tasks, source) && Runnable(r.tasks)
    ensures r.Rejected? && r.error.TaskFault? ==>
      && r.error.index < |source| && FaultSays(source, participants, r.error.index, r.error.fault)
      && forall j :: 0 <= j < r.error.index ==> WellFormedItem(source, participants, j)
    ensures r == Rejected(TaskCount) <==> !(1 <= |source| <= 24)
    ensures r.Rejected? ==> DependencyFault(source, r.error)
  {
    ItemsMean(source, participants);
    if |source| == 0 || |source| > MAX_TASKS { return Rejected(TaskCount); }
    r := NormalizeItems(source, participants);
    if r.Rejected? {
      FaultMeans(source, participants, r.error.index);
      forall j | 0 <= j < r.error.index ensures WellFormedItem(source, participants, j) {
        ItemMeans(source, participants, j);
      }
      return;
    }
    PlanSays(source, participants);
    KnownMeans(source, r.tasks);
    var problem := CheckDependencies(r.tasks);
    if problem.Some? {
      BlameMeans(source, r.tasks, problem.value);
      return Rejected(problem.value);
    }
    var graph, ids := IndexTasks(r.tasks);
    KnownIsClosed(r.tasks, graph, ids);
    CyclicMeans(source, r.tasks, graph);
    var ok, order := AcceptsGraph(graph, ids);
    if !ok { return Rejected(CyclicGraph); }
    assert GraphOf(r.tasks, graph) && CompleteOrder(graph, order);
  }

  lemma KnownIsClosed(tasks: seq<PlanTask>, g: Graph, ids: seq<string>)
    requires Known(tasks) && GraphOf(tasks, g)
    requires |ids| == |tasks| && forall i :: 0 <= i < |tasks| ==> ids[i] == tasks[i].id
    ensures Closed(g) && forall id :: id in ids <==> id in g
  {
    forall id | id in g ensures id in ids {
      var i :| 0 <= i < |tasks| && tasks[i].id == id;
      assert ids[i] == id;
    }
    forall id, d | id in g && d in g[id] ensures d in g {
      var i :| 0 <= i < |tasks| && tasks[i].id == id;
    }
  }
}
