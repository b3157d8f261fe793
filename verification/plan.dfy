/**
 * The planning state shared by the agents: the task records and the `state` dictionary that
 * the orchestrator passes from agent to agent, each agent updating it in place.
 */
module Plan {
  import opened Wrappers
  import opened Dicts
  import opened Graphs

  /**
   * A task dictionary.  `id`, `name` and `description` are read with `task[...]` everywhere;
   * the other keys may be absent.  Durations are in tenths of a day and dates are day
   * numbers (see module Calendar).
   */
  datatype Task = Task(
    id: string,
    name: string,
    description: string,
    category: Option<string>,
    complexity: Option<string>,
    duration: Option<int>,
    startDate: Option<int>,
    endDate: Option<int>,
    dependencies: Option<seq<string>>)

  /** A freshly planned task: only the keys the planner writes. */
  function NewTask(id: string, name: string, description: string, category: string, complexity: string): (t: Task)
    ensures t.id == id && t.name == name && t.description == description
    ensures t.category == Some(category) && t.complexity == Some(complexity)
    ensures t.duration.None? && t.startDate.None? && t.endDate.None? && t.dependencies.None?
  {
    Task(id, name, description, Some(category), Some(complexity), None, None, None, None)
  }

  /** `[t["id"] for t in tasks]`. */
  function Ids(tasks: seq<Task>): (ids: seq<string>)
    ensures |ids| == |tasks|
    ensures forall i :: 0 <= i < |tasks| ==> ids[i] == tasks[i].id
  {
    if tasks == [] then [] else [tasks[0].id] + Ids(tasks[1..])
  }

  /** `set(t["id"] for t in tasks)`. */
  ghost function IdSet(tasks: seq<Task>): set<string> {
    set i | 0 <= i < |tasks| :: tasks[i].id
  }

  /** Appending a task adds its id. */
  lemma IdSetSnoc(tasks: seq<Task>)
    requires tasks != []
    ensures IdSet(tasks) == IdSet(tasks[..|tasks| - 1]) + {tasks[|tasks| - 1].id}
  {
    var init := tasks[..|tasks| - 1];
    forall x | x in IdSet(tasks)
      ensures x in IdSet(init) + {tasks[|tasks| - 1].id}
    {
      var i :| 0 <= i < |tasks| && tasks[i].id == x;
      if i < |init| {
        assert init[i] == tasks[i];
      }
    }
    forall x | x in IdSet(init)
      ensures x in IdSet(tasks)
    {
      var i :| 0 <= i < |init| && init[i].id == x;
      assert tasks[i] == init[i];
    }
  }

  /** Every task has a `category` key. */
  predicate Categorised(tasks: seq<Task>) {
    forall i :: 0 <= i < |tasks| ==> tasks[i].category.Some?
  }

  /** Every task has `start_date` and `end_date` keys. */
  predicate Dated(tasks: seq<Task>) {
    forall i :: 0 <= i < |tasks| ==> tasks[i].startDate.Some? && tasks[i].endDate.Some?
  }

  /** Node of the dependency-graph visualisation. */
  datatype Node = Node(id: string, labelText: string, category: string, complexity: string, duration: int, x: int, y: int)

  /** Edge of the dependency-graph visualisation, drawn from a dependency to its dependent. */
  datatype Edge = Edge(id: string, source: string, target: string, labelText: string)

  datatype GraphView = GraphView(nodes: seq<Node>, edges: seq<Edge>, layout: string)

  datatype Statistics = Statistics(
    totalTasks: nat,
    categories: Dict<nat>,
    complexityDistribution: Dict<nat>,
    parallelizationFactor: nat)

  /** The JSON export; dates stay day numbers (ISO formatting is not modelled). */
  datatype JsonExport = JsonExport(
    description: string,
    createdAt: string,
    totalDurationDays: int,
    startDate: Option<int>,
    endDate: Option<int>,
    tasks: seq<Task>,
    dependencies: Graph,
    parallelGroups: seq<seq<string>>,
    criticalPath: seq<string>,
    statistics: Statistics)

  datatype Summary = Summary(
    totalTasks: nat,
    totalDuration: int,
    categories: Dict<nat>,
    canParallel: bool,
    criticalPathLength: nat,
    dependenciesCount: nat)

  /** A value of the `outputs` dictionary. */
  datatype Output =
    | TextOutput(text: string)
    | GraphOutput(graph: GraphView)
    | JsonOutput(json: JsonExport)
    | SummaryOutput(summary: Summary)

  /**
   * The `state` dictionary.  `project_start`, `project_end` and `outputs` are absent until
   * an agent writes them.
   */
  class PlanState {
    var description: string
    var tasks: seq<Task>
    var totalDuration: int
    var dependencies: Graph
    var parallelGroups: seq<seq<string>>
    var criticalPath: seq<string>
    var projectStart: Option<int>
    var projectEnd: Option<int>
    var outputs: Option<Dict<Output>>

    /** The initial state of a planning run. */
    constructor (description: string)
      ensures this.description == description && tasks == [] && totalDuration == 0
      ensures dependencies == [] && parallelGroups == [] && criticalPath == []
      ensures projectStart.None? && projectEnd.None? && outputs.None?
    {
      this.description := description;
      tasks := [];
      totalDuration := 0;
      dependencies := [];
      parallelGroups := [];
      criticalPath := [];
      projectStart := None;
      projectEnd := None;
      outputs := None;
    }
  }
}
