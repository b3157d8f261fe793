/**
 * `PlannerAgent.process`: the task list comes from the LLM reply, cleaned and parsed, and is
 * cut to at most eight tasks; when the call or the parse fails, a fixed list of three tasks
 * is used instead.  The LLM call and `json.loads` are parameters: `reply` is None when the
 * call raises, and `parse` returns None when `json.loads` or the slice raises.
 */
module Planner {
  import opened Wrappers
  import opened Graphs
  import opened Plan
  import opened Text
  import opened Response
  import opened Dicts
  import opened Fallback

  /** `tasks[:8]`. */
  const MaxTasks := 8

  /** The three tasks used when planning fails. */
  function FallbackTasks(): (tasks: seq<Task>)
    ensures |tasks| == 3 && Categorised(tasks)
  {
    [ NewTask("task_1", "Project Setup", "Initialize project structure", "development", "medium"),
      NewTask("task_2", "Core Development", "Build main features", "development", "medium"),
      NewTask("task_3", "Testing", "Test the application", "testing", "medium") ]
  }

  /** The task list `process` leaves in the state. */
  function PlannedTasks(reply: Option<string>, parse: string -> Option<seq<Task>>): seq<Task> {
    match reply
    case None => FallbackTasks()
    case Some(raw) =>
      match parse(Cleaned(raw))
      case None => FallbackTasks()
      case Some(tasks) => Prefix(tasks, MaxTasks)
  }

  /** `process(state)`: only `tasks` is written. */
  method Process(state: PlanState, reply: Option<string>, parse: string -> Option<seq<Task>>)
    modifies state
    ensures state.tasks == PlannedTasks(reply, parse)
    ensures state.description == old(state.description) && state.totalDuration == old(state.totalDuration)
    ensures state.dependencies == old(state.dependencies) && state.parallelGroups == old(state.parallelGroups)
    ensures state.criticalPath == old(state.criticalPath) && state.outputs == old(state.outputs)
    ensures state.projectStart == old(state.projectStart) && state.projectEnd == old(state.projectEnd)
  {
    if reply.None? {
      state.tasks := FallbackTasks();
      return;
    }
    var response := CleanResponse(reply.value);
    var tasks := parse(response);
    if tasks.None? {
      state.tasks := FallbackTasks();
    } else {
      state.tasks := Prefix(tasks.value, MaxTasks);
    }
  }

  /** A parsed list is kept in its order, cut to its first eight tasks. */
  lemma KeepsFirstEight(reply: string, parse: string -> Option<seq<Task>>)
    requires parse(Cleaned(reply)).Some?
    ensures var parsed := parse(Cleaned(reply)).value;
            var kept := PlannedTasks(Some(reply), parse);
            && |kept| == (if |parsed| < MaxTasks then |parsed| else MaxTasks)
            && kept == parsed[..|kept|]
  {
    var parsed := parse(Cleaned(reply)).value;
    var kept := PlannedTasks(Some(reply), parse);
    assert kept == Prefix(parsed, MaxTasks);
    assert kept == parsed[..|kept|];
  }

  /** Every failure gives the three fallback tasks: ids task_1..task_3, the first two development, the last testing. */
  lemma FailureGivesFallback(reply: Option<string>, parse: string -> Option<seq<Task>>)
    requires reply.None? || parse(Cleaned(reply.value)).None?
    ensures var tasks := PlannedTasks(reply, parse);
            && Ids(tasks) == ["task_1", "task_2", "task_3"]
            && tasks[0].category == Some("development") && tasks[1].category == Some("development")
            && tasks[2].category == Some("testing")
            && forall i :: 0 <= i < 3 ==> tasks[i].complexity == Some("medium")
  {
    var tasks := PlannedTasks(reply, parse);
    assert tasks == FallbackTasks();
    assert Ids(tasks) == [tasks[0].id, tasks[1].id, tasks[2].id];
  }

  /**
   * The fallback tasks form a chain under the fallback dependency rules: "Project Setup" is a
   * setup task by its name, development depends on it and testing on development.
   */
  lemma FallbackTasksChain()
    ensures SafeDependencies(FallbackTasks()) == [("task_1", []), ("task_2", ["task_1"]), ("task_3", ["task_2"])]
  {
    var tasks := FallbackTasks();
    FirstIsSetup();
    SecondIsDevelopment();
    ThirdIsTesting();
    ThreePhaseChain(tasks);
  }

  /** Three tasks of the setup, development and testing phases, in that order, form a chain. */
  lemma ThreePhaseChain(tasks: seq<Task>)
    requires |tasks| == 3 && Categorised(tasks)
    requires PhaseOf(tasks[0]) == Setup && PhaseOf(tasks[1]) == Development && PhaseOf(tasks[2]) == Testing
    requires tasks[0].id != tasks[1].id && tasks[1].id != tasks[2].id && tasks[0].id != tasks[2].id
    ensures SafeDependencies(tasks) == [(tasks[0].id, []), (tasks[1].id, [tasks[0].id]), (tasks[2].id, [tasks[1].id])]
  {
    ThreePhaseLists(tasks);
    ChainAssign(tasks);
  }

  /** The second loop over three tasks whose ids are alone in the setup, development and testing lists. */
  lemma {:induction false} ChainAssign(tasks: seq<Task>)
    requires |tasks| == 3
    requires tasks[0].id != tasks[1].id && tasks[1].id != tasks[2].id && tasks[0].id != tasks[2].id
    ensures var l := PhaseLists([tasks[0].id], [tasks[1].id], [tasks[2].id], [], []);
            Assign(l, tasks) == [(tasks[0].id, []), (tasks[1].id, [tasks[0].id]), (tasks[2].id, [tasks[1].id])]
  {
    var a, b, c := tasks[0].id, tasks[1].id, tasks[2].id;
    var l := PhaseLists([a], [b], [c], [], []);
    ChainRules(a, b, c);
    AssignSnoc(l, tasks, 0);
    AssignSnoc(l, tasks, 1);
    AssignSnoc(l, tasks, 2);
    assert tasks[..0] == [] && tasks[..3] == tasks;
    var g1: Graph := [(a, [])];
    assert g1[1..] == [] && !HasKey(g1, b);
    var g := Assign(l, tasks[..2]);
    assert g == [(a, []), (b, [a])];
    assert g[1..][1..] == [];
    assert !HasKey(g, c);
  }

  /** The rules for three ids alone in the setup, development and testing lists. */
  lemma ChainRules(a: string, b: string, c: string)
    requires a != b && b != c && a != c
    ensures var l := PhaseLists([a], [b], [c], [], []);
            Rule(l, a) == [] && Rule(l, b) == [a] && Rule(l, c) == [b]
  {
  }

  /** The phase lists of three tasks of the setup, development and testing phases. */
  lemma ThreePhaseLists(tasks: seq<Task>)
    requires |tasks| == 3 && Categorised(tasks)
    requires PhaseOf(tasks[0]) == Setup && PhaseOf(tasks[1]) == Development && PhaseOf(tasks[2]) == Testing
    ensures Lists(tasks) == PhaseLists([tasks[0].id], [tasks[1].id], [tasks[2].id], [], [])
  {
    assert tasks[..2][..1] == tasks[..1] && tasks[..|tasks| - 1] == tasks[..2] && tasks[..1][..0] == [];
    forall p: Phase
      ensures PhaseIds(tasks, p) == (if p == Setup then [tasks[0].id] else if p == Development then [tasks[1].id]
                                     else if p == Testing then [tasks[2].id] else [])
    {
      assert PhaseIds(tasks[..1], p) == if p == Setup then [tasks[0].id] else [];
      assert PhaseIds(tasks[..2], p) == if p == Setup then [tasks[0].id] else if p == Development then [tasks[1].id] else [];
    }
  }

  /** "Project Setup" is a setup task by its name... */
  lemma FirstIsSetup()
    ensures PhaseOf(FallbackTasks()[0]) == Setup
  {
    SetupByName();
    NamedSetup(FallbackTasks()[0]);
  }

  /** ...while "Core Development" and "Testing" go by their categories. */
  lemma SecondIsDevelopment()
    ensures PhaseOf(FallbackTasks()[1]) == Development
  {
    NotSetupByName("Core Development");
    CategoryPhase(FallbackTasks()[1]);
  }

  lemma ThirdIsTesting()
    ensures PhaseOf(FallbackTasks()[2]) == Testing
  {
    NotSetupByName("Testing");
    CategoryPhase(FallbackTasks()[2]);
  }

  lemma NamedSetup(t: Task)
    requires t.category.Some? && Contains(Lower(t.name), "setup")
    ensures PhaseOf(t) == Setup
  {
  }

  lemma CategoryPhase(t: Task)
    requires t.category.Some? && !Contains(Lower(t.name), "setup") && !Contains(Lower(t.name), "initial")
    ensures t.category == Some("development") ==> PhaseOf(t) == Development
    ensures t.category == Some("testing") ==> PhaseOf(t) == Testing
  {
  }

  /** "project setup" contains "setup". */
  lemma SetupByName()
    ensures Contains(Lower("Project Setup"), "setup")
  {
    ProjectSetupSplit();
    LowerAppend("Project ", "Setup");
    LowerSetup();
    EndsWithSetup(Lower("Project "));
  }

  lemma ProjectSetupSplit()
    ensures "Project Setup" == "Project " + "Setup"
  {
  }

  lemma LowerSetup()
    ensures Lower("Setup") == "setup"
  {
    assert Lower("Setup")[0] == 's';
  }

  lemma EndsWithSetup(x: string)
    ensures Contains(x + "setup", "setup")
  {
    assert (x + "setup")[|x|..|x| + 5] == "setup";
    assert OccursAt(x + "setup", "setup", |x|);
  }

  /** Neither "core development" nor "testing" contains "setup" or "initial". */
  lemma NotSetupByName(name: string)
    requires name == "Core Development" || name == "Testing"
    ensures !Contains(Lower(name), "setup") && !Contains(Lower(name), "initial")
  {
    if name == "Testing" {
      LowerTesting();
      TestingNotSetup();
    } else {
      CoreDevelopmentNotSetup();
    }
  }

  lemma LowerTesting()
    ensures Lower("Testing") == "testing"
  {
  }

  lemma TestingNotSetup()
    ensures !Contains("testing", "setup") && !Contains("testing", "initial")
  {
    NotContains("testing", "setup");
    NotContains("testing", "initial");
  }

  lemma CoreDevelopmentNotSetup()
    ensures !Contains(Lower("Core Development"), "setup") && !Contains(Lower("Core Development"), "initial")
  {
    LowerLacks("Core Development", 's');
    LowerLacks("Core Development", 'i');
    NoFirstChar(Lower("Core Development"), "setup");
    NoFirstChar(Lower("Core Development"), "initial");
  }
}
