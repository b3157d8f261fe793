/**
 * `DependencyAgent._create_safe_dependencies`: the fallback dependency map built from the
 * task names and categories.  Tasks are sorted into five phase lists (setup, development,
 * testing, deployment, documentation); each task then depends on a fixed part of an
 * earlier phase, so the result is acyclic by construction.
 */
module Fallback {
  import opened Wrappers
  import opened Dicts
  import opened Graphs
  import opened Plan
  import opened Text

  datatype Phase = Setup | Development | Testing | Deployment | Documentation | Unsorted

  /** The phase list a task is appended to: the name decides "setup" first, then the category. */
  function PhaseOf(t: Task): Phase
    requires t.category.Some?
  {
    var name := Lower(t.name);
    if Contains(name, "setup") || Contains(name, "initial") then Setup
    else if t.category.value == "development" then Development
    else if t.category.value == "testing" then Testing
    else if t.category.value == "deployment" then Deployment
    else if t.category.value == "documentation" then Documentation
    else Unsorted
  }

  /** `setup_tasks`, `dev_tasks`, ...: the ids of the tasks of phase p, in task order. */
  function PhaseIds(tasks: seq<Task>, p: Phase): seq<string>
    requires Categorised(tasks)
  {
    if tasks == [] then []
    else
      var last := tasks[|tasks| - 1];
      PhaseIds(tasks[..|tasks| - 1], p) + (if PhaseOf(last) == p then [last.id] else [])
  }

  /** The five lists built by the first loop. */
  datatype PhaseLists = PhaseLists(setup: seq<string>, dev: seq<string>, test: seq<string>,
                                   deploy: seq<string>, doc: seq<string>)

  function Lists(tasks: seq<Task>): PhaseLists
    requires Categorised(tasks)
  {
    PhaseLists(PhaseIds(tasks, Setup), PhaseIds(tasks, Development), PhaseIds(tasks, Testing),
               PhaseIds(tasks, Deployment), PhaseIds(tasks, Documentation))
  }

  /** The dependencies given to the id `id`, checked against the lists in order. */
  function Rule(l: PhaseLists, id: string): seq<string> {
    if id in l.setup then []
    else if id in l.dev then Prefix(l.setup, 1)
    else if id in l.test then (if |l.dev| >= 2 then l.dev[..2] else l.dev)
    else if id in l.deploy then l.test
    else if id in l.doc then (if l.setup != [] then Prefix(l.setup, 1) else [])
    else []
  }

  /** The second loop: `dependencies[task_id] = deps` for each task in turn. */
  function Assign(l: PhaseLists, tasks: seq<Task>): Graph {
    if tasks == [] then []
    else
      var last := tasks[|tasks| - 1];
      Put(Assign(l, tasks[..|tasks| - 1]), last.id, Rule(l, last.id))
  }

  function SafeDependencies(tasks: seq<Task>): Graph
    requires Categorised(tasks)
  {
    Assign(Lists(tasks), tasks)
  }

  /** `_create_safe_dependencies(tasks)`; a task without a category raises KeyError. */
  method CreateSafeDependencies(tasks: seq<Task>) returns (dependencies: Graph)
    requires Categorised(tasks)
    ensures dependencies == SafeDependencies(tasks)
  {
    var l := SortIntoPhases(tasks);
    dependencies := [];
    var i := 0;
    while i < |tasks|
      invariant i <= |tasks|
      invariant dependencies == Assign(l, tasks[..i])
    {
      var id := tasks[i].id;
      AssignSnoc(l, tasks, i);
      var deps := Rule(l, id);
      dependencies := Put(dependencies, id, deps);
      i := i + 1;
    }
    assert tasks[..i] == tasks;
  }

  /** The first loop of `_create_safe_dependencies`: each task id goes to the list of its phase. */
  method SortIntoPhases(tasks: seq<Task>) returns (l: PhaseLists)
    requires Categorised(tasks)
    ensures l == Lists(tasks)
  {
    var setup, dev, test, deploy, doc := [], [], [], [], [];
    var i := 0;
    while i < |tasks|
      invariant i <= |tasks|
      invariant setup == PhaseIds(tasks[..i], Setup) && dev == PhaseIds(tasks[..i], Development)
      invariant test == PhaseIds(tasks[..i], Testing) && deploy == PhaseIds(tasks[..i], Deployment)
      invariant doc == PhaseIds(tasks[..i], Documentation)
    {
      PhaseIdsSnoc(tasks, i);
      var task := tasks[i];
      var name := Lower(task.name);
      var category := task.category.value;
      if Contains(name, "setup") || Contains(name, "initial") {
        setup := setup + [task.id];
      } else if category == "development" {
        dev := dev + [task.id];
      } else if category == "testing" {
        test := test + [task.id];
      } else if category == "deployment" {
        deploy := deploy + [task.id];
      } else if category == "documentation" {
        doc := doc + [task.id];
      }
      i := i + 1;
    }
    assert tasks[..i] == tasks;
    l := PhaseLists(setup, dev, test, deploy, doc);
  }

  lemma PhaseIdsSnoc(tasks: seq<Task>, i: nat)
    requires Categorised(tasks) && i < |tasks|
    ensures forall p :: PhaseIds(tasks[..i + 1], p) == PhaseIds(tasks[..i], p) + (if PhaseOf(tasks[i]) == p then [tasks[i].id] else [])
  {
    assert tasks[..i + 1][..i] == tasks[..i];
  }

  lemma AssignSnoc(l: PhaseLists, tasks: seq<Task>, i: nat)
    requires i < |tasks|
    ensures Assign(l, tasks[..i + 1]) == Put(Assign(l, tasks[..i]), tasks[i].id, Rule(l, tasks[i].id))
  {
    assert tasks[..i + 1][..i] == tasks[..i];
  }

  /** Every id in a phase list is the id of a task of that phase... */
  lemma {:induction false} PhaseIdsSound(tasks: seq<Task>, p: Phase, x: string) returns (i: nat)
    requires Categorised(tasks) && x in PhaseIds(tasks, p)
    ensures i < |tasks| && tasks[i].id == x && PhaseOf(tasks[i]) == p
  {
    var init := tasks[..|tasks| - 1];
    if x in PhaseIds(init, p) {
      i := PhaseIdsSound(init, p, x);
      assert tasks[i] == init[i];
    } else {
      i := |tasks| - 1;
    }
  }

  /** ...and the id of every task of that phase is in the list. */
  lemma {:induction false} PhaseIdsComplete(tasks: seq<Task>, p: Phase, i: nat)
    requires Categorised(tasks) && i < |tasks| && PhaseOf(tasks[i]) == p
    ensures tasks[i].id in PhaseIds(tasks, p)
  {
    var init := tasks[..|tasks| - 1];
    if i < |init| {
      assert init[i] == tasks[i];
      PhaseIdsComplete(init, p, i);
    }
  }

  /** Every id in a phase list is a task id. */
  lemma PhaseIdsAreIds(tasks: seq<Task>, p: Phase, x: string)
    requires Categorised(tasks) && x in PhaseIds(tasks, p)
    ensures x in IdSet(tasks)
  {
    var i := PhaseIdsSound(tasks, p, x);
  }

  /** The fold maps exactly the assigned ids, each to its rule. */
  lemma {:induction false} AssignFind(l: PhaseLists, tasks: seq<Task>, x: string)
    ensures Find(Assign(l, tasks), x) == if x in IdSet(tasks) then Some(Rule(l, x)) else None
  {
    if tasks != [] {
      AssignFind(l, tasks[..|tasks| - 1], x);
      IdSetSnoc(tasks);
    }
  }

  /** The fold has at most one entry per task. */
  lemma {:induction false} AssignLength(l: PhaseLists, tasks: seq<Task>)
    ensures |Assign(l, tasks)| <= |tasks|
  {
    if tasks != [] {
      AssignLength(l, tasks[..|tasks| - 1]);
    }
  }

  /** `dependencies.get(x, [])` on the fallback map: the rule for a task id, [] for any other id. */
  lemma SafeDeps(tasks: seq<Task>, x: string)
    requires Categorised(tasks)
    ensures Deps(SafeDependencies(tasks), x) == if x in IdSet(tasks) then Rule(Lists(tasks), x) else []
    ensures HasKey(SafeDependencies(tasks), x) <==> x in IdSet(tasks)
  {
    AssignFind(Lists(tasks), tasks, x);
    DepsIsGet(SafeDependencies(tasks), x);
  }

  /** One entry per task id, each task id mapped to its rule, and no more entries than tasks. */
  lemma SafeDependenciesKeys(tasks: seq<Task>)
    requires Categorised(tasks)
    ensures forall x :: HasKey(SafeDependencies(tasks), x) <==> x in IdSet(tasks)
    ensures forall i :: 0 <= i < |tasks| ==>
      Deps(SafeDependencies(tasks), tasks[i].id) == Rule(Lists(tasks), tasks[i].id)
    ensures |SafeDependencies(tasks)| <= |tasks|
  {
    AssignLength(Lists(tasks), tasks);
    forall x
      ensures HasKey(SafeDependencies(tasks), x) <==> x in IdSet(tasks)
    {
      SafeDeps(tasks, x);
    }
    forall i | 0 <= i < |tasks|
      ensures Deps(SafeDependencies(tasks), tasks[i].id) == Rule(Lists(tasks), tasks[i].id)
    {
      assert tasks[i].id in IdSet(tasks);
      SafeDeps(tasks, tasks[i].id);
    }
  }

  /** A rule only names ids of the setup, development and testing lists. */
  lemma RuleTargets(l: PhaseLists, u: string, v: string)
    requires v in Rule(l, u)
    ensures v in l.setup || v in l.dev || v in l.test
  {
  }

  /** Every listed dependency is the id of some task. */
  lemma SafeDependenciesClosed(tasks: seq<Task>)
    requires Categorised(tasks)
    ensures forall u, v :: v in Deps(SafeDependencies(tasks), u) ==> v in IdSet(tasks)
  {
    var l := Lists(tasks);
    forall u, v | v in Deps(SafeDependencies(tasks), u)
      ensures v in IdSet(tasks)
    {
      SafeDeps(tasks, u);
      RuleTargets(l, u, v);
      if v in l.setup {
        PhaseIdsAreIds(tasks, Setup, v);
      } else if v in l.dev {
        PhaseIdsAreIds(tasks, Development, v);
      } else {
        PhaseIdsAreIds(tasks, Testing, v);
      }
    }
  }

  /** The phase rank: setup 0, development and documentation 1, testing 2, deployment 3. */
  function PhaseRank(l: PhaseLists, id: string): nat {
    if id in l.setup then 0
    else if id in l.dev then 1
    else if id in l.test then 2
    else if id in l.deploy then 3
    else if id in l.doc then 1
    else 0
  }

  ghost function Ranks(tasks: seq<Task>): map<string, nat>
    requires Categorised(tasks)
  {
    map x | x in IdSet(tasks) :: PhaseRank(Lists(tasks), x)
  }

  /** Each rule points only to strictly lower phases. */
  lemma RuleLowersRank(l: PhaseLists, u: string, v: string)
    requires v in Rule(l, u)
    ensures PhaseRank(l, v) < PhaseRank(l, u)
  {
    if u !in l.setup && u in l.dev {
      assert v in l.setup;
    } else if u !in l.setup && u !in l.dev && u in l.test {
      assert v in l.dev;
    } else if u !in l.setup && u !in l.dev && u !in l.test && u in l.deploy {
      assert v in l.test;
    } else {
      assert v in l.setup;
    }
  }

  /** The fallback map is ranked by phase, hence acyclic. */
  lemma SafeDependenciesRanked(tasks: seq<Task>)
    requires Categorised(tasks)
    ensures Ranked(SafeDependencies(tasks), Ranks(tasks))
    ensures !HasCycle(SafeDependencies(tasks))
  {
    var g := SafeDependencies(tasks);
    var l := Lists(tasks);
    var rank := Ranks(tasks);
    SafeDependenciesClosed(tasks);
    forall u | Deps(g, u) != []
      ensures u in IdSet(tasks) && Deps(g, u) == Rule(l, u)
    {
      SafeDeps(tasks, u);
    }
    forall u, v | v in Rule(l, u)
      ensures PhaseRank(l, v) < PhaseRank(l, u)
    {
      RuleLowersRank(l, u, v);
    }
    forall u, v | v in Deps(g, u)
      ensures u in rank && v in rank && rank[v] < rank[u]
    {
      assert u in IdSet(tasks) && v in IdSet(tasks);
    }
    RankedAcyclic(g, rank);
  }
}
