/**
 * `DependencyAgent._has_cycles`: depth-first search with a `visited` set and a recursion
 * stack `rec_stack`; meeting a node that is still on the stack is a cycle.
 */
module CycleCheck {
  import opened Dicts
  import opened Graphs

  /** `recStack` holds exactly the nodes of `stack`, and `stack` is a path of the graph. */
  ghost predicate StackOk(g: Graph, recStack: set<string>, stack: seq<string>) {
    (forall x :: x in recStack <==> x in stack) && IsPath(g, stack)
  }

  /**
   * The finished nodes are closed under dependencies and numbered so that a dependency
   * finishes before the node that needs it; every number is below `clock`.
   */
  ghost predicate FinishedOk(g: Graph, finished: map<string, nat>, clock: nat) {
    && (forall u :: u in finished ==> finished[u] < clock)
    && (forall u, v :: u in finished && v in Deps(g, u) ==> v in finished && finished[v] < finished[u])
  }

  ghost predicate SearchOk(g: Graph, nodes: set<string>, visited: set<string>, recStack: set<string>, stack: seq<string>,
                           finished: map<string, nat>, clock: nat) {
    && visited <= nodes
    && StackOk(g, recStack, stack)
    && visited == recStack + finished.Keys
    && recStack !! finished.Keys
    && FinishedOk(g, finished, clock)
  }

  /** Entering an unvisited node along an edge from the top of the stack. */
  lemma Enter(g: Graph, nodes: set<string>, visited: set<string>, recStack: set<string>, stack: seq<string>,
              finished: map<string, nat>, clock: nat, node: string)
    requires SearchOk(g, nodes, visited, recStack, stack, finished, clock)
    requires node in nodes && node !in visited
    requires stack == [] || node in Deps(g, stack[|stack| - 1])
    ensures SearchOk(g, nodes, visited + {node}, recStack + {node}, stack + [node], finished, clock)
  {
    var s := stack + [node];
    forall k | 0 <= k < |s| - 1
      ensures s[k + 1] in Deps(g, s[k])
    {
      if k < |s| - 2 {
        assert s[k] == stack[k] && s[k + 1] == stack[k + 1];
      }
    }
  }

  /** Leaving a node all of whose dependencies are finished: it finishes at `clock`. */
  lemma Leave(g: Graph, nodes: set<string>, visited: set<string>, recStack: set<string>, stack: seq<string>,
              finished: map<string, nat>, clock: nat, node: string)
    requires SearchOk(g, nodes, visited, recStack + {node}, stack + [node], finished, clock)
    requires node !in recStack && StackOk(g, recStack, stack)
    requires AllFinished(Deps(g, node), finished)
    ensures SearchOk(g, nodes, visited, recStack, stack, finished[node := clock], clock + 1)
  {
    var f := finished[node := clock];
    assert node !in finished;
    forall u, v | u in f && v in Deps(g, u)
      ensures v in f && f[v] < f[u]
    {
      if u == node {
        var m :| 0 <= m < |Deps(g, node)| && Deps(g, node)[m] == v;
        assert v in finished && finished[v] < clock;
      } else {
        assert v in finished && finished[v] < finished[u];
      }
    }
  }

  /** Every node of `ds` is finished. */
  ghost predicate AllFinished(ds: seq<string>, finished: map<string, nat>) {
    forall m :: 0 <= m < |ds| ==> ds[m] in finished
  }

  lemma FinishedStep(ds: seq<string>, i: nat, before: map<string, nat>, after: map<string, nat>)
    requires i < |ds| && AllFinished(ds[..i], before)
    requires forall x :: x in before ==> x in after
    requires ds[i] in after
    ensures AllFinished(ds[..i + 1], after)
  {
    var s := ds[..i + 1];
    forall m | 0 <= m < |s|
      ensures s[m] in after
    {
      if m < i {
        assert s[m] == ds[..i][m];
      }
    }
  }

  /** A dependency of the node on top of the stack may be visited next. */
  lemma ChildOk(g: Graph, nodes: set<string>, stack: seq<string>, node: string, d: string)
    requires nodes == Nodes(g) && stack != [] && stack[|stack| - 1] == node
    requires d in Deps(g, node)
    ensures d in nodes && d in Deps(g, stack[|stack| - 1])
  {
    DepsInNodes(g, node, d);
  }

  /** Popping the top of the stack keeps the stack a path and its set in step. */
  lemma PathPrefix(g: Graph, recStack: set<string>, stack: seq<string>, node: string)
    requires StackOk(g, recStack + {node}, stack + [node])
    requires node !in stack && node !in recStack
    ensures StackOk(g, recStack, stack)
  {
    var s := stack + [node];
    forall k | 0 <= k < |stack| - 1
      ensures stack[k + 1] in Deps(g, stack[k])
    {
      assert s[k] == stack[k] && s[k + 1] == stack[k + 1];
    }
    forall x
      ensures x in recStack <==> x in stack
    {
      assert x in stack ==> x in s;
      assert x in s && x != node ==> x in stack;
    }
  }

  /** The closure state of the search (the `visited` and `rec_stack` sets of `visit`). */
  class CycleSearch {
    const graph: Graph
    /** Every node the search can reach. */
    ghost const nodes: set<string>
    var visited: set<string>
    var recStack: set<string>
    /** `rec_stack` in the order the nodes were entered. */
    ghost var stack: seq<string>
    /** Finishing times of the nodes the search has left without finding a cycle. */
    ghost var finished: map<string, nat>
    ghost var clock: nat

    ghost predicate Valid()
      reads this
    {
      nodes == Nodes(graph) && SearchOk(graph, nodes, visited, recStack, stack, finished, clock)
    }

    constructor (g: Graph)
      ensures Valid() && graph == g
      ensures visited == {} && recStack == {} && stack == [] && finished == map[]
    {
      graph := g;
      nodes := Nodes(g);
      visited, recStack := {}, {};
      stack, finished, clock := [], map[], 0;
    }

    /** `visit(node)`, entered along an edge from the top of the stack (or from the outer loop). */
    method Visit(node: string) returns (found: bool)
      requires Valid()
      requires node in nodes
      requires stack == [] || node in Deps(graph, stack[|stack| - 1])
      modifies this
      decreases nodes - visited, 0
      ensures Valid()
      ensures found ==> HasCycle(graph)
      ensures (forall x :: x in old(visited) ==> x in visited)
      ensures !found ==> stack == old(stack) && recStack == old(recStack)
      ensures !found ==> node in finished && (forall x :: x in old(finished) ==> x in finished)
    {
      if node in recStack {
        StackCycle(graph, stack, node);
        return true;
      }
      if node in visited {
        return false;
      }
      ghost var stack0 := stack;
      var recStack0 := recStack;
      Enter(graph, nodes, visited, recStack, stack, finished, clock, node);
      visited := visited + {node};
      recStack := recStack + {node};
      stack := stack + [node];
      found := VisitDeps(node);
      if found {
        return;
      }
      assert node !in stack0;
      PathPrefix(graph, recStack0, stack0, node);
      Leave(graph, nodes, visited, recStack0, stack0, finished, clock, node);
      recStack := recStack0;
      stack := stack0;
      finished := finished[node := clock];
      clock := clock + 1;
    }

    /** The loop of `visit(node)` over `dependencies.get(node, [])`, with `node` on top of the stack. */
    method VisitDeps(node: string) returns (found: bool)
      requires Valid()
      requires stack != [] && stack[|stack| - 1] == node
      modifies this
      decreases nodes - visited, 1
      ensures Valid()
      ensures found ==> HasCycle(graph)
      ensures (forall x :: x in old(visited) ==> x in visited)
      ensures !found ==> stack == old(stack) && recStack == old(recStack)
      ensures !found ==> (forall x :: x in old(finished) ==> x in finished)
      ensures !found ==> AllFinished(Deps(graph, node), finished)
    {
      var deps := Deps(graph, node);
      var i := 0;
      while i < |deps|
        invariant i <= |deps|
        invariant Valid()
        invariant stack == old(stack) && recStack == old(recStack)
        invariant (forall x :: x in old(visited) ==> x in visited)
        invariant (forall x :: x in old(finished) ==> x in finished)
        invariant AllFinished(deps[..i], finished)
      {
        ChildOk(graph, nodes, stack, node, deps[i]);
        ghost var before := finished;
        found := Visit(deps[i]);
        if found {
          return;
        }
        FinishedStep(deps, i, before, finished);
        i := i + 1;
      }
      assert deps[..i] == deps;
      found := false;
    }
  }

  /** Reaching a node of the stack from the top of the stack closes a cycle. */
  lemma StackCycle(g: Graph, stack: seq<string>, node: string)
    requires IsPath(g, stack) && node in stack
    requires node in Deps(g, stack[|stack| - 1])
    ensures HasCycle(g)
  {
    var j :| 0 <= j < |stack| && stack[j] == node;
    var c := stack[j..] + [node];
    forall k | 0 <= k < |c| - 1
      ensures c[k + 1] in Deps(g, c[k])
    {
      if k < |c| - 2 {
        assert c[k] == stack[j + k] && c[k + 1] == stack[j + k + 1];
      }
    }
    assert IsCycle(g, c);
  }

  /** The first `i` keys of `g` are in `s`. */
  ghost predicate KeysIn(g: Graph, i: nat, s: set<string>)
    requires i <= |g|
  {
    forall m :: 0 <= m < i ==> g[m].0 in s
  }

  lemma KeysInStep(g: Graph, i: nat, before: set<string>, after: set<string>)
    requires i < |g| && KeysIn(g, i, before)
    requires forall x :: x in before ==> x in after
    requires g[i].0 in after
    ensures KeysIn(g, i + 1, after)
  {
  }

  /** A node with dependencies is a key, so it is finished once every key is. */
  lemma KeyFinished(g: Graph, finished: map<string, nat>, u: string)
    requires KeysIn(g, |g|, finished.Keys)
    requires Deps(g, u) != []
    ensures u in finished
  {
    var k := DepsOfKey(g, u);
    assert g[k].0 in finished;
  }

  /** Once every key is finished, the finishing times rank the graph. */
  lemma AllFinishedRanked(g: Graph, finished: map<string, nat>, clock: nat)
    requires FinishedOk(g, finished, clock)
    requires KeysIn(g, |g|, finished.Keys)
    ensures Ranked(g, finished)
  {
    forall u | Deps(g, u) != []
      ensures u in finished
    {
      KeyFinished(g, finished, u);
    }
    forall u, v | v in Deps(g, u)
      ensures u in finished && v in finished && finished[v] < finished[u]
    {
      assert u in finished;
    }
  }

  /** `_has_cycles(dependencies)`: true exactly when the graph has a cycle. */
  method HasCycles(g: Graph) returns (found: bool)
    ensures found <==> HasCycle(g)
  {
    var search := new CycleSearch(g);
    var i := 0;
    while i < |g|
      invariant i <= |g|
      invariant search.Valid() && search.graph == g
      invariant search.stack == [] && search.recStack == {}
      invariant KeysIn(g, i, search.visited)
    {
      var node := g[i].0;
      ghost var before := search.visited;
      if node !in search.visited {
        KeysInNodes(g, i);
        found := search.Visit(node);
        if found {
          return;
        }
      }
      KeysInStep(g, i, before, search.visited);
      i := i + 1;
    }
    assert search.visited == search.finished.Keys;
    AllFinishedRanked(g, search.finished, search.clock);
    RankedAcyclic(g, search.finished);
    return false;
  }
}
