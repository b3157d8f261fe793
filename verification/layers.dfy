/**
 * `DependencyAgent._create_parallel_groups`: repeatedly collect every remaining task whose
 * dependencies are all completed; when none is, put all remaining tasks in one last group.
 * Python iterates over a set here, so the order inside a group is not determined: the
 * specification speaks of the set of members of each group.
 */
module Layering {
  import opened Dicts
  import opened Graphs
  import opened Plan

  /** The set of elements of a list. */
  function Elements(xs: seq<string>): set<string> {
    set x | x in xs
  }

  predicate NoDup(xs: seq<string>) {
    forall i, j :: 0 <= i < j < |xs| ==> xs[i] != xs[j]
  }

  /** `all(dep in completed for dep in dependencies.get(task_id, []))`. */
  predicate IsReady(g: Graph, x: string, completed: set<string>) {
    forall d :: d in Deps(g, x) ==> d in completed
  }

  /** The remaining tasks that can run now. */
  function Ready(g: Graph, remaining: set<string>, completed: set<string>): set<string> {
    set x | x in remaining && IsReady(g, x, completed)
  }

  /** A group, and whether it was formed by the no-progress branch. */
  datatype Layer = Layer(members: set<string>, forced: bool)

  /** The next group: the ready tasks, or every remaining task when none is ready. */
  function FirstLayer(g: Graph, remaining: set<string>, completed: set<string>): (l: Layer)
    requires remaining != {}
    ensures l.members != {} && l.members <= remaining
    ensures l.forced <==> Ready(g, remaining, completed) == {}
    ensures l.forced ==> l.members == remaining
    ensures !l.forced ==> l.members == Ready(g, remaining, completed)
  {
    var r := Ready(g, remaining, completed);
    if r == {} then Layer(remaining, true) else Layer(r, false)
  }

  /** Removing a non-empty part of a set makes it smaller. */
  lemma RemoveSmaller(s: set<string>, part: set<string>)
    requires part != {} && part <= s
    ensures |s - part| < |s|
  {
    var x :| x in part;
    assert s - part <= s - {x};
  }

  /** The groups the loop forms from `remaining` and `completed`, in order. */
  ghost function Layers(g: Graph, remaining: set<string>, completed: set<string>): seq<Layer>
    decreases |remaining|
  {
    if remaining == {} then []
    else
      var l := FirstLayer(g, remaining, completed);
      RemoveSmaller(remaining, l.members);
      [l] + Layers(g, remaining - l.members, completed + l.members)
  }

  lemma LayersUnfold(g: Graph, remaining: set<string>, completed: set<string>, group: set<string>)
    requires remaining != {} && group == FirstLayer(g, remaining, completed).members
    ensures Layers(g, remaining, completed)
         == [FirstLayer(g, remaining, completed)] + Layers(g, remaining - group, completed + group)
  {
  }

  lemma SnocAssoc<T>(a: seq<T>, x: T, b: seq<T>)
    ensures a + ([x] + b) == (a + [x]) + b
  {
  }

  lemma ConsAt<T>(x: T, rest: seq<T>, k: nat)
    requires 0 < k <= |rest|
    ensures ([x] + rest)[k] == rest[k - 1]
    ensures ([x] + rest)[..k] == [x] + rest[..k - 1]
  {
  }

  /** Group k of the method is layer k, as a list without repetitions. */
  ghost predicate Matches(groups: seq<seq<string>>, ls: seq<Layer>) {
    |groups| == |ls| && forall k :: 0 <= k < |groups| ==> Elements(groups[k]) == ls[k].members && NoDup(groups[k])
  }

  lemma MatchesSnoc(groups: seq<seq<string>>, ls: seq<Layer>, group: seq<string>, l: Layer)
    requires Matches(groups, ls) && Elements(group) == l.members && NoDup(group)
    ensures Matches(groups + [group], ls + [l])
  {
  }

  /** The members of all the layers. */
  ghost function Placed(ls: seq<Layer>): set<string> {
    if ls == [] then {} else ls[0].members + Placed(ls[1..])
  }

  /** `list(remaining)`: the members of a set, each once, in some order. */
  method ListOf(s: set<string>) returns (xs: seq<string>)
    ensures Elements(xs) == s && NoDup(xs)
  {
    xs := [];
    var todo := s;
    while todo != {}
      invariant todo <= s
      invariant forall y :: y in xs <==> y in s && y !in todo
      invariant NoDup(xs)
      decreases |todo|
    {
      var x :| x in todo;
      xs := xs + [x];
      todo := todo - {x};
    }
  }

  /** The inner loop: the remaining tasks whose dependencies are all completed. */
  method ReadyTasks(g: Graph, remaining: set<string>, completed: set<string>) returns (group: seq<string>)
    ensures Elements(group) == Ready(g, remaining, completed) && NoDup(group)
  {
    group := [];
    var todo := remaining;
    while todo != {}
      invariant todo <= remaining
      invariant forall y :: y in group <==> y in remaining && y !in todo && IsReady(g, y, completed)
      invariant NoDup(group)
      decreases |todo|
    {
      var x :| x in todo;
      var deps := Deps(g, x);
      if forall d | d in deps :: d in completed {
        group := group + [x];
      }
      todo := todo - {x};
    }
  }

  /** One pass of the outer loop: the ready tasks, or `list(remaining)` when there are none. */
  method NextGroup(g: Graph, remaining: set<string>, completed: set<string>) returns (current: seq<string>)
    requires remaining != {}
    ensures Elements(current) == FirstLayer(g, remaining, completed).members && NoDup(current)
  {
    current := ReadyTasks(g, remaining, completed);
    if current == [] {
      assert Ready(g, remaining, completed) == {} by {
        assert forall x :: x !in Elements(current);
      }
      current := ListOf(remaining);
    } else {
      assert current[0] in Elements(current);
    }
  }

  /** `_create_parallel_groups(tasks, dependencies)`: group k holds exactly the members of layer k. */
  method CreateParallelGroups(tasks: seq<Task>, dependencies: Graph) returns (groups: seq<seq<string>>)
    ensures Matches(groups, ParallelLayers(tasks, dependencies))
  {
    var remaining := set i | 0 <= i < |tasks| :: tasks[i].id;
    var completed := {};
    groups := [];
    ghost var done: seq<Layer> := [];
    while remaining != {}
      invariant ParallelLayers(tasks, dependencies) == done + Layers(dependencies, remaining, completed)
      invariant Matches(groups, done)
      decreases |remaining|
    {
      var current := NextGroup(dependencies, remaining, completed);
      ghost var l := FirstLayer(dependencies, remaining, completed);
      RemoveSmaller(remaining, l.members);
      LayersUnfold(dependencies, remaining, completed, Elements(current));
      MatchesSnoc(groups, done, current, l);
      ghost var rest := Layers(dependencies, remaining - Elements(current), completed + Elements(current));
      SnocAssoc(done, l, rest);
      done := done + [l];
      groups := groups + [current];
      completed := completed + Elements(current);
      remaining := remaining - Elements(current);
    }
  }

  /** Every layer is a non-empty set of remaining tasks, and there are at most as many layers as tasks. */
  lemma {:induction false} LayersShape(g: Graph, remaining: set<string>, completed: set<string>)
    ensures |Layers(g, remaining, completed)| <= |remaining|
    ensures forall k :: 0 <= k < |Layers(g, remaining, completed)| ==>
      Layers(g, remaining, completed)[k].members != {} && Layers(g, remaining, completed)[k].members <= remaining
    decreases |remaining|
  {
    if remaining != {} {
      var ls := Layers(g, remaining, completed);
      var group := FirstLayer(g, remaining, completed).members;
      LayersUnfold(g, remaining, completed, group);
      RemoveSmaller(remaining, group);
      var rest := Layers(g, remaining - group, completed + group);
      LayersShape(g, remaining - group, completed + group);
      forall k | 0 < k < |ls|
        ensures ls[k].members != {} && ls[k].members <= remaining
      {
        assert ls[k] == rest[k - 1];
      }
    }
  }

  /** The layers are pairwise disjoint. */
  lemma {:induction false} LayersDisjoint(g: Graph, remaining: set<string>, completed: set<string>)
    ensures forall j, k :: 0 <= j < k < |Layers(g, remaining, completed)| ==>
      Layers(g, remaining, completed)[j].members !! Layers(g, remaining, completed)[k].members
    decreases |remaining|
  {
    if remaining != {} {
      var ls := Layers(g, remaining, completed);
      var group := FirstLayer(g, remaining, completed).members;
      LayersUnfold(g, remaining, completed, group);
      RemoveSmaller(remaining, group);
      var rest := Layers(g, remaining - group, completed + group);
      LayersShape(g, remaining - group, completed + group);
      LayersDisjoint(g, remaining - group, completed + group);
      forall j, k | 0 <= j < k < |ls|
        ensures ls[j].members !! ls[k].members
      {
        assert ls[k] == rest[k - 1];
        if j > 0 {
          assert ls[j] == rest[j - 1];
        }
      }
    }
  }

  /** Every remaining task is placed in some layer. */
  lemma {:induction false} LayersCover(g: Graph, remaining: set<string>, completed: set<string>, x: string) returns (k: nat)
    requires x in remaining
    ensures k < |Layers(g, remaining, completed)| && x in Layers(g, remaining, completed)[k].members
    decreases |remaining|
  {
    var ls := Layers(g, remaining, completed);
    var group := FirstLayer(g, remaining, completed).members;
    LayersUnfold(g, remaining, completed, group);
    if x in group {
      k := 0;
    } else {
      var rest := Layers(g, remaining - group, completed + group);
      RemoveSmaller(remaining, group);
      var k' := LayersCover(g, remaining - group, completed + group, x);
      k := k' + 1;
      assert ls[k] == rest[k'];
    }
  }

  /** The placed tasks are exactly the remaining ones. */
  lemma {:induction false} PlacedIsRemaining(g: Graph, remaining: set<string>, completed: set<string>)
    ensures Placed(Layers(g, remaining, completed)) == remaining
    decreases |remaining|
  {
    if remaining != {} {
      var ls := Layers(g, remaining, completed);
      var group := FirstLayer(g, remaining, completed).members;
      LayersUnfold(g, remaining, completed, group);
      RemoveSmaller(remaining, group);
      assert ls[1..] == Layers(g, remaining - group, completed + group);
      PlacedIsRemaining(g, remaining - group, completed + group);
    }
  }

  /**
   * Outside the no-progress branch, every dependency of a member of layer k is completed
   * before the loop starts or a member of an earlier layer.
   */
  lemma {:induction false} LayersRespectDependencies(g: Graph, remaining: set<string>, completed: set<string>,
                                                      k: nat, x: string, d: string)
    requires k < |Layers(g, remaining, completed)|
    requires !Layers(g, remaining, completed)[k].forced
    requires x in Layers(g, remaining, completed)[k].members && d in Deps(g, x)
    ensures d in completed + Placed(Layers(g, remaining, completed)[..k])
    decreases |remaining|
  {
    var ls := Layers(g, remaining, completed);
    var group := FirstLayer(g, remaining, completed).members;
    LayersUnfold(g, remaining, completed, group);
    if k > 0 {
      var l := FirstLayer(g, remaining, completed);
      var rest := Layers(g, remaining - group, completed + group);
      RemoveSmaller(remaining, group);
      ConsAt(l, rest, k);
      LayersRespectDependencies(g, remaining - group, completed + group, k - 1, x, d);
    }
  }

  /**
   * The no-progress branch forms the last group, and it fires only when the remaining tasks
   * are stuck on a cycle or on a dependency that is neither completed nor remaining.
   */
  lemma {:induction false} ForcedLayer(g: Graph, remaining: set<string>, completed: set<string>, k: nat)
    requires k < |Layers(g, remaining, completed)|
    requires Layers(g, remaining, completed)[k].forced
    ensures k == |Layers(g, remaining, completed)| - 1
    ensures HasCycle(g) || exists x, d :: x in remaining && d in Deps(g, x) && d !in completed + remaining
    decreases |remaining|
  {
    var l := FirstLayer(g, remaining, completed);
    var group := l.members;
    LayersUnfold(g, remaining, completed, group);
    var rest := Layers(g, remaining - group, completed + group);
    if k > 0 {
      assert Layers(g, remaining, completed)[k] == rest[k - 1];
      ForcedLayer(g, remaining - group, completed + group, k - 1);
      assert (completed + group) + (remaining - group) == completed + remaining;
      if !HasCycle(g) {
        var x, d :| x in remaining - group && d in Deps(g, x) && d !in completed + remaining;
        assert x in remaining;
      }
    } else {
      assert remaining - group == {};
      Stuck(g, remaining, completed);
    }
  }

  /** No remaining task is ready: there is a cycle among them or a dependency outside. */
  lemma Stuck(g: Graph, remaining: set<string>, completed: set<string>)
    requires remaining != {} && Ready(g, remaining, completed) == {}
    ensures HasCycle(g) || exists x, d :: x in remaining && d in Deps(g, x) && d !in completed + remaining
  {
    if forall x {:trigger Deps(g, x)} :: x in remaining ==> exists y :: y in Deps(g, x) && y in remaining {
      StuckSetHasCycle(g, remaining);
    } else {
      var x :| x in remaining && !(exists y :: y in Deps(g, x) && y in remaining);
      assert x !in Ready(g, remaining, completed);
      var d :| d in Deps(g, x) && d !in completed;
      assert d !in completed + remaining;
    }
  }

  /** The layers of a task list. */
  ghost function ParallelLayers(tasks: seq<Task>, g: Graph): seq<Layer> {
    Layers(g, IdSet(tasks), {})
  }

  /** For an acyclic graph whose dependencies are all task ids, the no-progress branch never fires. */
  lemma NeverForced(tasks: seq<Task>, g: Graph, k: nat)
    requires !HasCycle(g)
    requires forall u, v :: v in Deps(g, u) ==> v in IdSet(tasks)
    requires k < |ParallelLayers(tasks, g)|
    ensures !ParallelLayers(tasks, g)[k].forced
  {
    if ParallelLayers(tasks, g)[k].forced {
      ForcedLayer(g, IdSet(tasks), {}, k);
    }
  }
}
