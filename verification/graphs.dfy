/**
 * Dependency graphs: a dictionary from a task id to the ids it depends on.  An id that is
 * not a key has no dependencies (`dependencies.get(id, [])`).  Edges run from a task to
 * each of its dependencies.
 */
module Graphs {
  import opened Dicts

  type Graph = Dict<seq<string>>

  /** `dependencies.get(id, [])`: the list of the first entry for `id`, or []. */
  function Deps(g: seq<(string, seq<string>)>, id: string): seq<string> {
    if g == [] then [] else if g[0].0 == id then g[0].1 else Deps(g[1..], id)
  }

  lemma {:induction false} DepsIsGet(g: seq<(string, seq<string>)>, id: string)
    ensures Deps(g, id) == Get(g, id, [])
  {
    if g != [] && g[0].0 != id {
      DepsIsGet(g[1..], id);
    }
  }

  /** Only a key has dependencies. */
  lemma {:induction false} DepsOfKey(g: seq<(string, seq<string>)>, u: string) returns (k: nat)
    requires Deps(g, u) != []
    ensures k < |g| && g[k].0 == u
  {
    if g[0].0 != u {
      k := DepsOfKey(g[1..], u);
      k := k + 1;
    } else {
      k := 0;
    }
  }

  /** Every key and every listed dependency. */
  ghost function Nodes(g: seq<(string, seq<string>)>): set<string> {
    if g == [] then {} else {g[0].0} + (set d | d in g[0].1) + Nodes(g[1..])
  }

  lemma {:induction false} DepsInNodes(g: seq<(string, seq<string>)>, u: string, v: string)
    requires v in Deps(g, u)
    ensures u in Nodes(g) && v in Nodes(g)
  {
    if g[0].0 != u {
      DepsInNodes(g[1..], u, v);
    }
  }

  lemma {:induction false} KeysInNodes(g: seq<(string, seq<string>)>, i: nat)
    requires i < |g|
    ensures g[i].0 in Nodes(g)
  {
    if i > 0 {
      KeysInNodes(g[1..], i - 1);
    }
  }

  /** Consecutive elements are joined by an edge: p[k + 1] is a dependency of p[k]. */
  ghost predicate IsPath(g: Graph, p: seq<string>) {
    forall k :: 0 <= k < |p| - 1 ==> p[k + 1] in Deps(g, p[k])
  }

  /** A path of at least one edge that returns to where it started. */
  ghost predicate IsCycle(g: Graph, p: seq<string>) {
    |p| >= 2 && IsPath(g, p) && p[0] == p[|p| - 1]
  }

  ghost predicate HasCycle(g: Graph) {
    exists p :: IsCycle(g, p)
  }

  /** `rank` strictly decreases along every edge: a witness that the graph is acyclic. */
  ghost predicate Ranked(g: Graph, rank: map<string, nat>) {
    forall u, v :: v in Deps(g, u) ==> u in rank && v in rank && rank[v] < rank[u]
  }

  lemma PathTail(g: Graph, p: seq<string>)
    requires IsPath(g, p) && |p| >= 1
    ensures IsPath(g, p[1..])
  {
    var q := p[1..];
    forall k | 0 <= k < |q| - 1
      ensures q[k + 1] in Deps(g, q[k])
    {
      assert q[k] == p[k + 1] && q[k + 1] == p[k + 2];
    }
  }

  lemma {:induction false} RankDecreasesAlongPath(g: Graph, rank: map<string, nat>, p: seq<string>)
    requires Ranked(g, rank) && IsPath(g, p) && |p| >= 2
    ensures p[0] in rank && p[|p| - 1] in rank && rank[p[|p| - 1]] < rank[p[0]]
  {
    assert p[1] in Deps(g, p[0]);
    if |p| == 2 {
      assert p[|p| - 1] == p[1];
      assert p[0] in rank;
      assert p[1] in rank;
      assert rank[p[1]] < rank[p[0]];
    } else {
      PathTail(g, p);
      RankDecreasesAlongPath(g, rank, p[1..]);
      assert p[1..][|p| - 2] == p[|p| - 1];
    }
  }

  /** A ranked graph has no cycle. */
  lemma RankedAcyclic(g: Graph, rank: map<string, nat>)
    requires Ranked(g, rank)
    ensures !HasCycle(g)
  {
    if p :| IsCycle(g, p) {
      RankDecreasesAlongPath(g, rank, p);
    }
  }

  /** Among more than |S| values drawn from S, two are equal. */
  lemma {:induction false} Pigeonhole<T>(p: seq<T>, S: set<T>) returns (i: nat, j: nat)
    requires forall k :: 0 <= k < |p| ==> p[k] in S
    requires |p| > |S|
    ensures i < j < |p| && p[i] == p[j]
  {
    if p[0] in p[1..] {
      var k :| 0 <= k < |p[1..]| && p[1..][k] == p[0];
      i, j := 0, k + 1;
    } else {
      var S' := S - {p[0]};
      assert |S'| == |S| - 1;
      var i', j' := Pigeonhole(p[1..], S');
      i, j := i' + 1, j' + 1;
    }
  }

  /** A walk of k steps inside S, when every node of S has a dependency in S. */
  lemma {:induction false} WalkInside(g: Graph, S: set<string>, u: string, k: nat) returns (p: seq<string>)
    requires u in S
    requires forall x {:trigger Deps(g, x)} :: x in S ==> exists y :: y in Deps(g, x) && y in S
    ensures |p| == k + 1 && p[0] == u && IsPath(g, p)
    ensures forall m :: 0 <= m < |p| ==> p[m] in S
    decreases k
  {
    if k == 0 {
      p := [u];
    } else {
      var y :| y in Deps(g, u) && y in S;
      var rest := WalkInside(g, S, y, k - 1);
      p := [u] + rest;
      forall m | 0 <= m < |p| - 1
        ensures p[m + 1] in Deps(g, p[m])
      {
        if m > 0 {
          assert p[m] == rest[m - 1] && p[m + 1] == rest[m];
        }
      }
      forall m | 0 <= m < |p|
        ensures p[m] in S
      {
        if m > 0 {
          assert p[m] == rest[m - 1];
        }
      }
    }
  }

  /** If every node of a non-empty set depends on a node of the same set, there is a cycle. */
  lemma StuckSetHasCycle(g: Graph, S: set<string>)
    requires S != {}
    requires forall x {:trigger Deps(g, x)} :: x in S ==> exists y :: y in Deps(g, x) && y in S
    ensures HasCycle(g)
  {
    var u :| u in S;
    var p := WalkInside(g, S, u, |S|);
    var i, j := Pigeonhole(p, S);
    var c := p[i..j + 1];
    forall m | 0 <= m < |c| - 1
      ensures c[m + 1] in Deps(g, c[m])
    {
      assert c[m] == p[i + m] && c[m + 1] == p[i + m + 1];
    }
    assert IsCycle(g, c);
  }
}
