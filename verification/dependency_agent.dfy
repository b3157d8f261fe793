/**
 * `DependencyAgent.process`: the dependency map comes from the LLM reply when the reply can
 * be cleaned and parsed and the map has no cycle; otherwise the fallback map, its parallel
 * groups and its critical path are computed.  Every task then records its dependency list,
 * and the second scheduling pass moves dependents after their dependencies.  The LLM call
 * and `json.loads` are parameters: `reply` is None when the call raises, and `parse` returns
 * None when `json.loads` or one of the `.get` calls on its result raises.
 */
module DependencyAgent {
  import opened Wrappers
  import opened Dicts
  import opened Graphs
  import opened Plan
  import opened Response
  import opened CycleCheck
  import opened Fallback
  import opened Layering
  import opened CriticalPath
  import opened Reschedule

  /** `dep_data.get("dependencies", {})`, `.get("parallel_groups", [])`, `.get("critical_path", [])`. */
  datatype Suggestion = Suggestion(dependencies: Graph, parallelGroups: seq<seq<string>>, criticalPath: seq<string>)

  /** The suggestion `process` keeps: the parsed one, unless the call or the parse fails or its map has a cycle. */
  ghost function Kept(reply: Option<string>, parse: string -> Option<Suggestion>): Option<Suggestion> {
    match reply
    case None => None
    case Some(raw) =>
      match parse(Cleaned(raw))
      case None => None
      case Some(s) => if HasCycle(s.dependencies) then None else Some(s)
  }

  /** The tasks after `task["dependencies"] = dependencies.get(task_id, [])` for each task. */
  function Linked(tasks: seq<Task>, g: Graph): (r: seq<Task>)
    ensures |r| == |tasks|
    ensures Dated(tasks) ==> Dated(r)
  {
    seq(|tasks|, i requires 0 <= i < |tasks| => tasks[i].(dependencies := Some(Deps(g, tasks[i].id))))
  }

  /** Linking only writes `dependencies`, and writes the map's list for the task's id, [] when it has none. */
  lemma LinkedFields(tasks: seq<Task>, g: Graph, i: nat)
    requires i < |tasks|
    ensures var t := Linked(tasks, g)[i];
            && t.dependencies == Some(Get(g, tasks[i].id, []))
            && t == tasks[i].(dependencies := t.dependencies)
  {
    DepsIsGet(g, tasks[i].id);
  }

  /** The loop at the start of the update: each task records its dependency list. */
  method AttachDependencies(tasks: seq<Task>, dependencies: Graph) returns (linked: seq<Task>)
    ensures linked == Linked(tasks, dependencies)
  {
    linked := tasks;
    for i := 0 to |tasks|
      invariant |linked| == |tasks|
      invariant forall j :: 0 <= j < i ==> linked[j] == Linked(tasks, dependencies)[j]
      invariant forall j :: i <= j < |tasks| ==> linked[j] == tasks[j]
    {
      var taskId := linked[i].id;
      linked := linked[i := linked[i].(dependencies := Some(Deps(dependencies, taskId)))];
    }
  }

  /**
   * `process(state)`.  The kept suggestion supplies the map, the groups and the path verbatim;
   * otherwise the fallback map is used, with groups that are its layers and a critical path
   * along its edges.  The tasks are linked to the map and rescheduled, and the project span is
   * recomputed.
   */
  method Process(state: PlanState, reply: Option<string>, parse: string -> Option<Suggestion>)
    requires Categorised(state.tasks) && Dated(state.tasks)
    modifies state
    ensures Chosen(old(state.tasks), reply, parse, state.dependencies, state.parallelGroups, state.criticalPath)
    ensures state.tasks == Rescheduled(Linked(old(state.tasks), state.dependencies), state.dependencies)
    ensures old(state.tasks) != [] ==>
      SpanRecorded(state.tasks, state.projectStart, state.projectEnd, state.totalDuration)
    ensures old(state.tasks) == [] ==>
      && state.projectStart == old(state.projectStart) && state.projectEnd == old(state.projectEnd)
      && state.totalDuration == old(state.totalDuration)
    ensures state.description == old(state.description) && state.outputs == old(state.outputs)
  {
    var tasks := state.tasks;
    var dependencies, parallelGroups, criticalPath := Resolve(tasks, reply, parse);
    var linked := AttachDependencies(tasks, dependencies);
    state.tasks := linked;
    AdjustTimeline(state, dependencies);
    Record(state, dependencies, parallelGroups, criticalPath);
  }

  /** `state["dependencies"] = ...`, `state["parallel_groups"] = ...`, `state["critical_path"] = ...`. */
  method Record(state: PlanState, dependencies: Graph, parallelGroups: seq<seq<string>>, criticalPath: seq<string>)
    modifies state
    ensures state.dependencies == dependencies && state.parallelGroups == parallelGroups
    ensures state.criticalPath == criticalPath
    ensures state.description == old(state.description) && state.tasks == old(state.tasks)
    ensures state.totalDuration == old(state.totalDuration) && state.outputs == old(state.outputs)
    ensures state.projectStart == old(state.projectStart) && state.projectEnd == old(state.projectEnd)
  {
    state.dependencies := dependencies;
    state.parallelGroups := parallelGroups;
    state.criticalPath := criticalPath;
  }

  /**
   * The map, groups and path `process` settles on: those of the kept suggestion, or the
   * fallback map with its layers and a critical path along its edges.
   */
  ghost predicate Chosen(tasks: seq<Task>, reply: Option<string>, parse: string -> Option<Suggestion>,
                         dependencies: Graph, parallelGroups: seq<seq<string>>, criticalPath: seq<string>)
    requires Categorised(tasks)
  {
    match Kept(reply, parse)
    case Some(s) =>
      dependencies == s.dependencies && parallelGroups == s.parallelGroups && criticalPath == s.criticalPath
    case None => IsFallback(tasks, dependencies, parallelGroups, criticalPath)
  }

  /**
   * The fallback map, groups that are exactly its layers, and a path along its edges that is
   * empty only for no tasks and, when no id is empty, a critical path.
   */
  ghost predicate IsFallback(tasks: seq<Task>, dependencies: Graph, parallelGroups: seq<seq<string>>, criticalPath: seq<string>)
    requires Categorised(tasks)
  {
    && dependencies == SafeDependencies(tasks)
    && Matches(parallelGroups, ParallelLayers(tasks, dependencies))
    && (criticalPath == [] <==> tasks == [])
    && IsChain(dependencies, criticalPath)
    && (NoBlank(tasks, dependencies) && tasks != [] ==> IsCriticalPath(tasks, dependencies, Ranks(tasks), criticalPath))
  }

  /** The `try` block and its `except` clause: clean, parse and check the reply, or fall back. */
  method Resolve(tasks: seq<Task>, reply: Option<string>, parse: string -> Option<Suggestion>)
    returns (dependencies: Graph, parallelGroups: seq<seq<string>>, criticalPath: seq<string>)
    requires Categorised(tasks)
    ensures Chosen(tasks, reply, parse, dependencies, parallelGroups, criticalPath)
  {
    var suggestion: Option<Suggestion> := None;
    if reply.Some? {
      var response := CleanResponse(reply.value);
      suggestion := parse(response);
    }
    var cyclic := false;
    if suggestion.Some? {
      cyclic := HasCycles(suggestion.value.dependencies);
    }
    if suggestion.Some? && !cyclic {
      dependencies := suggestion.value.dependencies;
      parallelGroups := suggestion.value.parallelGroups;
      criticalPath := suggestion.value.criticalPath;
    } else {
      dependencies, parallelGroups, criticalPath := FallbackPlan(tasks);
    }
  }

  /**
   * The fallback of `process`, on a detected cycle or a failure: the fallback map, its
   * parallel groups and its critical path.
   */
  method FallbackPlan(tasks: seq<Task>) returns (dependencies: Graph, parallelGroups: seq<seq<string>>, criticalPath: seq<string>)
    requires Categorised(tasks)
    ensures IsFallback(tasks, dependencies, parallelGroups, criticalPath)
  {
    dependencies := CreateSafeDependencies(tasks);
    parallelGroups := CreateParallelGroups(tasks, dependencies);
    SafeDependenciesRanked(tasks);
    criticalPath := FindCriticalPath(tasks, dependencies, Ranks(tasks));
  }

  /** Each element of the path is a dependency of the next one. */
  ghost predicate IsChain(g: Graph, path: seq<string>) {
    forall k :: 0 <= k < |path| - 1 ==> path[k] in Deps(g, path[k + 1])
  }

  /** A non-empty chain from a task without dependencies up to a deepest task, one id per level of depth. */
  ghost predicate IsCriticalPath(tasks: seq<Task>, g: Graph, rank: map<string, nat>, path: seq<string>) {
    && Ranked(g, rank)
    && path != []
    && Deps(g, path[0]) == []
    && |path| == Depth(g, rank, path[|path| - 1]) + 1
    && forall x :: x in IdSet(tasks) ==> Depth(g, rank, x) <= Depth(g, rank, path[|path| - 1])
  }

  /** Rescheduling changes dates only, so every task keeps the dependency list it was given. */
  lemma RescheduledKeepsDependencies(tasks: seq<Task>, g: Graph, i: nat)
    requires Dated(tasks) && i < |tasks|
    ensures Rescheduled(tasks, g)[i].dependencies == tasks[i].dependencies
    ensures Rescheduled(tasks, g)[i].id == tasks[i].id
  {
    FinalTask(tasks, g, i);
  }

  /** After `process`, task i records `dependencies.get(id, [])` for the map left in the state. */
  lemma RecordedDependencies(tasks: seq<Task>, g: Graph, i: nat)
    requires Dated(tasks) && i < |tasks|
    ensures Rescheduled(Linked(tasks, g), g)[i].id == tasks[i].id
    ensures Rescheduled(Linked(tasks, g), g)[i].dependencies == Some(Get(g, tasks[i].id, []))
  {
    LinkedFields(tasks, g, i);
    RescheduledKeepsDependencies(Linked(tasks, g), g, i);
  }

  /** On the fallback path every task records the dependencies its phase rule gives it. */
  lemma FallbackRecordsRule(tasks: seq<Task>, i: nat)
    requires Categorised(tasks) && Dated(tasks) && i < |tasks|
    ensures var g := SafeDependencies(tasks);
            Rescheduled(Linked(tasks, g), g)[i].dependencies == Some(Rule(Lists(tasks), tasks[i].id))
  {
    var g := SafeDependencies(tasks);
    RecordedDependencies(tasks, g, i);
    assert tasks[i].id in IdSet(tasks);
    SafeDeps(tasks, tasks[i].id);
    DepsIsGet(g, tasks[i].id);
  }

  /**
   * On the fallback path the no-progress branch never fires: every dependency of a task in
   * group k is placed in an earlier group.
   */
  lemma FallbackGroupsOrdered(tasks: seq<Task>, k: nat, x: string, d: string)
    requires Categorised(tasks)
    requires k < |ParallelLayers(tasks, SafeDependencies(tasks))|
    requires x in ParallelLayers(tasks, SafeDependencies(tasks))[k].members
    requires d in Deps(SafeDependencies(tasks), x)
    ensures !ParallelLayers(tasks, SafeDependencies(tasks))[k].forced
    ensures d in Placed(ParallelLayers(tasks, SafeDependencies(tasks))[..k])
  {
    var g := SafeDependencies(tasks);
    SafeDependenciesRanked(tasks);
    SafeDependenciesClosed(tasks);
    NeverForced(tasks, g, k);
    LayersRespectDependencies(g, IdSet(tasks), {}, k, x, d);
  }
}
