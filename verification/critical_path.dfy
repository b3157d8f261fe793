/**
 * `DependencyAgent._find_critical_path`: a memoised depth (edges along the longest chain of
 * dependencies below a task), then a walk from the deepest task down through the deepest
 * dependency at each step.  The depth recursion only terminates on an acyclic graph, so the
 * graph comes with a ranking witness.
 */
module CriticalPath {
  import opened Wrappers
  import opened Dicts
  import opened Graphs
  import opened Plan

  function Max(a: int, b: int): int {
    if a >= b then a else b
  }

  function RankOf(rank: map<string, nat>, x: string): nat {
    if x in rank then rank[x] else 0
  }

  /** A dependency of x has a lower rank than x. */
  lemma RankedDep(g: Graph, rank: map<string, nat>, x: string, n: nat)
    requires Ranked(g, rank) && n < |Deps(g, x)|
    ensures RankOf(rank, Deps(g, x)[n]) < RankOf(rank, x)
  {
    assert Deps(g, x)[n] in Deps(g, x);
  }

  /** `get_depth(x)`: 0 without dependencies, else one more than the deepest dependency. */
  ghost function Depth(g: Graph, rank: map<string, nat>, x: string): nat
    requires Ranked(g, rank)
    decreases RankOf(rank, x), 1, 0
  {
    if Deps(g, x) == [] then 0 else 1 + DepsDepth(g, rank, x, |Deps(g, x)|)
  }

  /** The greatest depth among the first n dependencies of x. */
  ghost function DepsDepth(g: Graph, rank: map<string, nat>, x: string, n: nat): nat
    requires Ranked(g, rank) && 1 <= n <= |Deps(g, x)|
    decreases RankOf(rank, x), 0, n
  {
    RankedDep(g, rank, x, n - 1);
    var v := Depth(g, rank, Deps(g, x)[n - 1]);
    if n == 1 then v else Max(DepsDepth(g, rank, x, n - 1), v)
  }

  /** One more dependency: the running maximum takes its depth when it is the first or deeper. */
  lemma DepsDepthStep(g: Graph, rank: map<string, nat>, x: string, i: nat, m: nat, v: nat)
    requires Ranked(g, rank) && i < |Deps(g, x)|
    requires i > 0 ==> m == DepsDepth(g, rank, x, i)
    requires v == Depth(g, rank, Deps(g, x)[i])
    ensures (if i == 0 || v > m then v else m) == DepsDepth(g, rank, x, i + 1)
  {
  }

  /** DepsDepth is the maximum: no listed dependency is deeper, and one is exactly as deep. */
  lemma {:induction false} DepsDepthIsMax(g: Graph, rank: map<string, nat>, x: string, n: nat) returns (w: nat)
    requires Ranked(g, rank) && 1 <= n <= |Deps(g, x)|
    ensures forall j :: 0 <= j < n ==> Depth(g, rank, Deps(g, x)[j]) <= DepsDepth(g, rank, x, n)
    ensures w < n && Depth(g, rank, Deps(g, x)[w]) == DepsDepth(g, rank, x, n)
  {
    if n == 1 {
      w := 0;
    } else {
      w := DepsDepthIsMax(g, rank, x, n - 1);
      if Depth(g, rank, Deps(g, x)[n - 1]) > DepsDepth(g, rank, x, n - 1) {
        w := n - 1;
      }
    }
  }

  /** Depth is the length of the longest path: no path from x has more than Depth(x) edges. */
  lemma {:induction false} PathNoLongerThanDepth(g: Graph, rank: map<string, nat>, p: seq<string>)
    requires Ranked(g, rank) && IsPath(g, p) && p != []
    ensures |p| - 1 <= Depth(g, rank, p[0])
    decreases |p|
  {
    if |p| > 1 {
      PathTail(g, p);
      PathNoLongerThanDepth(g, rank, p[1..]);
      var ds := Deps(g, p[0]);
      assert p[1] in ds;
      var j :| 0 <= j < |ds| && ds[j] == p[1];
      var _ := DepsDepthIsMax(g, rank, p[0], |ds|);
    }
  }

  /** An id the search can be asked about: a task id or a listed dependency. */
  ghost predicate Known(ids: set<string>, g: Graph, x: string) {
    x in ids || exists u :: x in Deps(g, u)
  }

  /** Every memoised depth is the true depth; the dependencies of a memoised id are memoised too. */
  ghost predicate MemoOk(g: Graph, rank: map<string, nat>, ids: set<string>, depths: Dict<nat>)
    requires Ranked(g, rank)
  {
    forall x :: Find(depths, x).Some? ==>
      && Find(depths, x).value == Depth(g, rank, x)
      && Known(ids, g, x)
      && (forall d :: d in Deps(g, x) ==> Find(depths, d).Some?)
  }

  /** Recording the depth of an id whose dependencies are all recorded. */
  lemma MemoPut(g: Graph, rank: map<string, nat>, ids: set<string>, depths: Dict<nat>, id: string)
    requires Ranked(g, rank) && MemoOk(g, rank, ids, depths) && Known(ids, g, id)
    requires forall d :: d in Deps(g, id) ==> Find(depths, d).Some?
    ensures MemoOk(g, rank, ids, Put(depths, id, Depth(g, rank, id)))
    ensures forall x :: Find(depths, x).Some? ==> Find(Put(depths, id, Depth(g, rank, id)), x).Some?
  {
    var after := Put(depths, id, Depth(g, rank, id));
    forall x | x != id
      ensures Find(after, x) == Find(depths, x)
    {
    }
  }

  /** Every element of ds[..n] is memoised. */
  ghost predicate AllMemoised(ds: seq<string>, n: nat, depths: Dict<nat>)
    requires n <= |ds|
  {
    forall j :: 0 <= j < n ==> Find(depths, ds[j]).Some?
  }

  lemma AllMemoisedStep(ds: seq<string>, n: nat, before: Dict<nat>, after: Dict<nat>)
    requires n < |ds| && AllMemoised(ds, n, before)
    requires forall x :: Find(before, x).Some? ==> Find(after, x).Some?
    requires Find(after, ds[n]).Some?
    ensures AllMemoised(ds, n + 1, after)
  {
  }

  /** The `depths` memo of `_find_critical_path`. */
  class DepthMemo {
    const graph: Graph
    ghost const rank: map<string, nat>
    ghost const ids: set<string>
    var depths: Dict<nat>

    ghost predicate Valid()
      reads this
    {
      Ranked(graph, rank) && MemoOk(graph, rank, ids, depths)
    }

    constructor (g: Graph, ghost rank: map<string, nat>, ghost ids: set<string>)
      requires Ranked(g, rank)
      ensures Valid() && graph == g && this.rank == rank && this.ids == ids && depths == []
    {
      graph, this.rank, this.ids := g, rank, ids;
      depths := [];
    }

    /** `get_depth(task_id)`. */
    method GetDepth(id: string) returns (r: nat)
      requires Valid() && Known(ids, graph, id)
      modifies this
      decreases RankOf(rank, id), 1
      ensures Valid()
      ensures r == Depth(graph, rank, id) && Find(depths, id) == Some(r)
      ensures forall x :: Find(old(depths), x).Some? ==> Find(depths, x).Some?
    {
      var known := Find(depths, id);
      if known.Some? {
        return known.value;
      }
      var deps := Deps(graph, id);
      if deps == [] {
        r := 0;
      } else {
        var m := DepsMax(id);
        r := m + 1;
      }
      MemoPut(graph, rank, ids, depths, id);
      depths := Put(depths, id, r);
    }

    /** `max(get_depth(dep) for dep in deps)`, evaluated dependency by dependency. */
    method DepsMax(id: string) returns (m: nat)
      requires Valid() && Known(ids, graph, id) && Deps(graph, id) != []
      modifies this
      decreases RankOf(rank, id), 0
      ensures Valid()
      ensures m == DepsDepth(graph, rank, id, |Deps(graph, id)|)
      ensures forall d :: d in Deps(graph, id) ==> Find(depths, d).Some?
      ensures forall x :: Find(old(depths), x).Some? ==> Find(depths, x).Some?
    {
      var deps := Deps(graph, id);
      var i := 0;
      m := 0;
      while i < |deps|
        invariant i <= |deps|
        invariant Valid()
        invariant i > 0 ==> m == DepsDepth(graph, rank, id, i)
        invariant AllMemoised(deps, i, depths)
        invariant forall x :: Find(old(depths), x).Some? ==> Find(depths, x).Some?
      {
        RankedDep(graph, rank, id, i);
        assert Known(ids, graph, deps[i]);
        ghost var before := depths;
        var v := GetDepth(deps[i]);
        DepsDepthStep(graph, rank, id, i, m, v);
        if i == 0 || v > m {
          m := v;
        }
        AllMemoisedStep(deps, i, before, depths);
        i := i + 1;
      }
    }

    /** `for task_id in task_ids: get_depth(task_id)`. */
    method ComputeAll(taskIds: seq<string>)
      requires Valid() && forall i :: 0 <= i < |taskIds| ==> taskIds[i] in ids
      modifies this
      ensures Valid() && AllMemoised(taskIds, |taskIds|, depths)
      ensures taskIds == [] ==> depths == old(depths)
    {
      var i := 0;
      while i < |taskIds|
        invariant i <= |taskIds|
        invariant Valid()
        invariant AllMemoised(taskIds, i, depths)
        invariant i == 0 ==> depths == old(depths)
      {
        ghost var before := depths;
        var _ := GetDepth(taskIds[i]);
        AllMemoisedStep(taskIds, i, before, depths);
        i := i + 1;
      }
    }
  }

  /** Python's `max(xs)`: the index of the first greatest element. */
  function ArgMax(xs: seq<int>): (i: nat)
    requires xs != []
    ensures i < |xs|
    ensures forall j :: 0 <= j < |xs| ==> xs[j] <= xs[i]
    ensures forall j :: 0 <= j < i ==> xs[j] < xs[i]
  {
    if |xs| == 1 then 0
    else
      var i := ArgMax(xs[..|xs| - 1]);
      if xs[|xs| - 1] > xs[i] then |xs| - 1 else i
  }

  /** `depths.get(d, 0)` for each dependency d. */
  function MemoValues(depths: Dict<nat>, ds: seq<string>): (vs: seq<int>)
    ensures |vs| == |ds|
    ensures forall j :: 0 <= j < |ds| ==> vs[j] == Get(depths, ds[j], 0)
  {
    seq(|ds|, j requires 0 <= j < |ds| => Get(depths, ds[j], 0))
  }

  /** The path never meets the empty id, which Python's `while current:` treats as the end. */
  ghost predicate NoBlank(tasks: seq<Task>, g: Graph) {
    "" !in IdSet(tasks) && forall u :: "" !in Deps(g, u)
  }

  /**
   * `_find_critical_path(tasks, dependencies)`: the result is a chain of dependencies, empty
   * only for an empty task list; when no id is empty it runs from a task without dependencies
   * up to a deepest task, one edge per level of depth.
   */
  method FindCriticalPath(tasks: seq<Task>, g: Graph, ghost rank: map<string, nat>) returns (path: seq<string>)
    requires Ranked(g, rank)
    ensures path == [] <==> tasks == []
    ensures forall k :: 0 <= k < |path| - 1 ==> path[k] in Deps(g, path[k + 1])
    ensures NoBlank(tasks, g) && tasks != [] ==>
      && Deps(g, path[0]) == []
      && |path| == Depth(g, rank, path[|path| - 1]) + 1
      && (forall x :: x in IdSet(tasks) ==> Depth(g, rank, x) <= Depth(g, rank, path[|path| - 1]))
  {
    var taskIds := Ids(tasks);
    var memo := new DepthMemo(g, rank, IdSet(tasks));
    memo.ComputeAll(taskIds);
    var depths := memo.depths;
    path := WalkFromDeepest(g, rank, IdSet(tasks), depths);
    if depths != [] {
      DeepestTask(tasks, g, rank, depths, ArgMax(Values(depths)));
    }
    if path == [] {
      path := if taskIds != [] then [taskIds[0]] else [];
    }
  }

  /**
   * The second half of `_find_critical_path`: from the first deepest memoised id, prepend the
   * current id and move to its first deepest dependency, until an id without dependencies
   * (or the empty id) is reached.
   */
  method WalkFromDeepest(g: Graph, ghost rank: map<string, nat>, ghost ids: set<string>, depths: Dict<nat>)
    returns (path: seq<string>)
    requires Ranked(g, rank) && MemoOk(g, rank, ids, depths)
    ensures depths == [] ==> path == []
    ensures forall k :: 0 <= k < |path| - 1 ==> path[k] in Deps(g, path[k + 1])
    ensures depths != [] && depths[ArgMax(Values(depths))].0 != "" && (forall u :: "" !in Deps(g, u)) ==>
      && path != []
      && path[|path| - 1] == depths[ArgMax(Values(depths))].0
      && Deps(g, path[0]) == []
      && |path| == Depth(g, rank, path[|path| - 1]) + 1
  {
    path := [];
    if depths != [] {
      var top := ArgMax(Values(depths));
      FindAt(depths, top);
      path := WalkFrom(g, rank, ids, depths, depths[top].0);
    }
  }

  /**
   * The `while current:` loop from `start`: prepend the current id and move to its first
   * deepest dependency, until an id without dependencies (or the empty id) is reached.
   */
  method WalkFrom(g: Graph, ghost rank: map<string, nat>, ghost ids: set<string>, depths: Dict<nat>, start: string)
    returns (path: seq<string>)
    requires Ranked(g, rank) && MemoOk(g, rank, ids, depths) && Find(depths, start).Some?
    ensures start == "" ==> path == []
    ensures forall k :: 0 <= k < |path| - 1 ==> path[k] in Deps(g, path[k + 1])
    ensures start != "" && (forall u :: "" !in Deps(g, u)) ==>
      && path != []
      && path[|path| - 1] == start
      && Deps(g, path[0]) == []
      && |path| == Depth(g, rank, start) + 1
  {
    path := [];
    ghost var h := start != "" && forall u :: "" !in Deps(g, u);
    var current := Some(start);
    while current.Some? && current.value != ""
      invariant forall k :: 0 <= k < |path| - 1 ==> path[k] in Deps(g, path[k + 1])
      invariant current.Some? ==> Find(depths, current.value).Some?
      invariant path == [] ==> current == Some(start)
      invariant start == "" ==> path == []
      invariant path != [] && current.Some? ==> current.value in Deps(g, path[0])
      invariant h ==> current.Some? ==> current.value != ""
      invariant path != [] ==> path[|path| - 1] == start
      invariant path != [] ==> Depth(g, rank, start) == Depth(g, rank, path[0]) + |path| - 1
      invariant path != [] && current.Some? ==> Depth(g, rank, current.value) + 1 == Depth(g, rank, path[0])
      invariant path != [] && current.None? ==> Deps(g, path[0]) == []
      decreases if current.Some? then RankOf(rank, current.value) + 1 else 0
    {
      var node := current.value;
      ChainCons(g, node, path);
      path := [node] + path;
      var deps := Deps(g, node);
      if deps != [] {
        var j := ArgMax(MemoValues(depths, deps));
        NextDeepest(g, rank, ids, depths, node, j);
        current := Some(deps[j]);
      } else {
        current := None;
      }
    }
  }

  /** Prepending a dependency of the first element keeps a chain a chain. */
  lemma ChainCons(g: Graph, node: string, path: seq<string>)
    requires forall k :: 0 <= k < |path| - 1 ==> path[k] in Deps(g, path[k + 1])
    requires path != [] ==> node in Deps(g, path[0])
    ensures forall k :: 0 <= k < |[node] + path| - 1 ==> ([node] + path)[k] in Deps(g, ([node] + path)[k + 1])
  {
    var p := [node] + path;
    forall k | 0 <= k < |p| - 1
      ensures p[k] in Deps(g, p[k + 1])
    {
      if k > 0 {
        assert p[k] == path[k - 1] && p[k + 1] == path[k];
      }
    }
  }

  /** The first greatest memoised depth belongs to an id at least as deep as every task. */
  lemma DeepestTask(tasks: seq<Task>, g: Graph, rank: map<string, nat>, depths: Dict<nat>, top: nat)
    requires Ranked(g, rank) && MemoOk(g, rank, IdSet(tasks), depths)
    requires AllMemoised(Ids(tasks), |tasks|, depths)
    requires top < |depths| && forall j :: 0 <= j < |depths| ==> Values(depths)[j] <= Values(depths)[top]
    ensures forall x :: x in IdSet(tasks) ==> Depth(g, rank, x) <= Depth(g, rank, depths[top].0)
    ensures NoBlank(tasks, g) ==> depths[top].0 != ""
  {
    var start := depths[top].0;
    FindAt(depths, top);
    assert Find(depths, start).Some?;
    assert Values(depths)[top] == Depth(g, rank, start);
    forall x | x in IdSet(tasks)
      ensures Depth(g, rank, x) <= Depth(g, rank, start)
    {
      var i :| 0 <= i < |tasks| && tasks[i].id == x;
      assert Ids(tasks)[i] == x;
      assert Find(depths, x).Some?;
      var k := FindIndex(depths, x);
      assert Values(depths)[k] == Depth(g, rank, x);
    }
  }

  /** The first deepest dependency of a memoised id is one level less deep. */
  lemma NextDeepest(g: Graph, rank: map<string, nat>, ids: set<string>, depths: Dict<nat>, node: string, j: nat)
    requires Ranked(g, rank) && MemoOk(g, rank, ids, depths)
    requires Find(depths, node).Some? && Deps(g, node) != []
    requires j < |Deps(g, node)|
    requires forall k :: 0 <= k < |Deps(g, node)| ==> MemoValues(depths, Deps(g, node))[k] <= MemoValues(depths, Deps(g, node))[j]
    ensures Find(depths, Deps(g, node)[j]).Some?
    ensures Depth(g, rank, Deps(g, node)[j]) + 1 == Depth(g, rank, node)
    ensures RankOf(rank, Deps(g, node)[j]) < RankOf(rank, node)
  {
    var ds := Deps(g, node);
    RankedDep(g, rank, node, j);
    var w := DepsDepthIsMax(g, rank, node, |ds|);
    assert ds[w] in ds && ds[j] in ds;
    assert MemoValues(depths, ds)[w] == Depth(g, rank, ds[w]);
  }
}
