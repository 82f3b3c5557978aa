/** The visiting/visited depth-first search that both graph checks run
    (backend/composition_proposal.py, backend/continuous_builder/dependency_analysis.py),
    against acyclicity stated without it. */
module DepthFirst {

  type Node = string
  type Graph = map<Node, seq<Node>>

  /** Every edge leads to a node of the graph. */
  ghost predicate Closed(g: Graph) {
    forall n, d :: n in g && d in g[n] ==> d in g
  }

  ghost predicate Edge(g: Graph, a: Node, b: Node) {
    a in g && b in g[a]
  }

  ghost predicate StepAt(g: Graph, p: seq<Node>, i: int) {
    0 < i < |p| ==> Edge(g, p[i - 1], p[i])
  }

  ghost predicate IsPath(g: Graph, p: seq<Node>) {
    p != [] && forall i :: StepAt(g, p, i)
  }

  ghost predicate IsCycle(g: Graph, p: seq<Node>) {
    |p| >= 2 && IsPath(g, p) && p[0] == p[|p| - 1]
  }

  ghost predicate HasCycle(g: Graph) {
    exists p :: IsCycle(g, p)
  }

  /** A topological ranking: dependencies rank strictly below their dependents. */
  ghost predicate Ranks(g: Graph, rank: map<Node, nat>) {
    && g.Keys <= rank.Keys
    && (forall a, b :: Edge(g, a, b) ==> b in rank && rank[b] < rank[a])
  }

  lemma {:induction false} RankFallsAlongPath(g: Graph, rank: map<Node, nat>, p: seq<Node>)
    requires Ranks(g, rank) && IsPath(g, p) && p[0] in rank
    ensures p[|p| - 1] in rank && rank[p[|p| - 1]] <= rank[p[0]] - (|p| - 1)
    decreases |p|
  {
    if |p| > 1 {
      var q := p[..|p| - 1];
      forall i ensures StepAt(g, q, i) {
        assert StepAt(g, p, i);
      }
      RankFallsAlongPath(g, rank, q);
      assert StepAt(g, p, |p| - 1);
    }
  }

  /** A ranked graph has no cycle. */
  lemma RankedIsAcyclic(g: Graph, rank: map<Node, nat>)
    requires Ranks(g, rank)
    ensures !HasCycle(g)
  {
    forall p | IsPath(g, p) && |p| >= 2 ensures p[0] != p[|p| - 1] {
      assert StepAt(g, p, 1);
      RankFallsAlongPath(g, rank, p);
    }
  }

  /** `order` lists finished nodes, dependencies first. */
  ghost predicate Finished(g: Graph, order: seq<Node>) {
    && (forall i, j :: 0 <= i < j < |order| ==> order[i] != order[j])
    && (forall i :: 0 <= i < |order| ==> order[i] in g && forall d :: d in g[order[i]] ==> d in order[..i])
  }

  lemma FinishOne(g: Graph, order: seq<Node>, n: Node)
    requires Finished(g, order) && n in g && n !in order && forall d :: d in g[n] ==> d in order
    ensures Finished(g, order + [n])
  {
    var next := order + [n];
    forall i | 0 <= i < |next| ensures next[i] in g && forall d :: d in g[next[i]] ==> d in next[..i] {
      if i < |order| {
        assert next[..i] == order[..i];
      } else {
        assert next[..i] == order;
      }
    }
  }

  function RankOf(order: seq<Node>): (r: map<Node, nat>)
    ensures r.Keys == set x | x in order
  {
    if order == [] then map[]
    else
      assert order == order[..|order| - 1] + [order[|order| - 1]];
      RankOf(order[..|order| - 1])[order[|order| - 1] := |order| - 1]
  }

  lemma {:induction false} RankOfIndex(order: seq<Node>, i: nat)
    requires forall a, b :: 0 <= a < b < |order| ==> order[a] != order[b]
    requires i < |order|
    ensures RankOf(order)[order[i]] == i
  {
    if i < |order| - 1 {
      RankOfIndex(order[..|order| - 1], i);
    }
  }

  /** A finishing order that covers the graph is a topological ranking. */
  lemma FinishedRanks(g: Graph, order: seq<Node>)
    requires Finished(g, order) && (forall n :: n in g ==> n in order)
    ensures Ranks(g, RankOf(order))
  {
    var rank := RankOf(order);
    forall a, b | Edge(g, a, b) ensures b in rank && rank[b] < rank[a] {
      var i :| 0 <= i < |order| && order[i] == a;
      var j :| 0 <= j < i && order[j] == b;
      RankOfIndex(order, i);
      RankOfIndex(order, j);
    }
  }

  /** The two mutable sets of the search, with its call stack and finishing order kept as ghosts. */
  class Search {
    const g: Graph
    var visiting: set<Node>
    var visited: set<Node>
    ghost var stack: seq<Node>
    ghost var order: seq<Node>

    ghost predicate Valid()
      reads this
    {
      && visiting == (set x | x in stack)
      && visited == (set x | x in order)
      && (forall i :: StepAt(g, stack, i))
      && (forall i :: 0 <= i < |stack| ==> stack[i] in g && stack[i] !in order)
      && Finished(g, order)
    }

    constructor (g: Graph)
      ensures Valid() && this.g == g && visiting == {} && visited == {} && stack == []
    {
      this.g := g;
      visiting, visited, stack, order := {}, {}, [], [];
    }

    /** Visits one node. Acceptance finishes it below everything already finished;
        refusal exhibits a cycle. */
    method Visit(n: Node) returns (ok: bool)
      requires Valid() && Closed(g) && n in g
      requires stack != [] ==> Edge(g, stack[|stack| - 1], n)
      modifies this
      ensures ok ==> Valid() && n in visited && old(visited) <= visited
      ensures ok ==> visiting == old(visiting) && stack == old(stack)
      ensures !ok ==> HasCycle(g)
      decreases g.Keys - visiting - visited
    {
      if n in visiting {
        CycleOnStack(g, stack, n);
        return false;
      }
      if n in visited {
        return true;
      }
      visiting := visiting + {n};
      stack := stack + [n];
      assert forall i :: StepAt(g, old(stack), i) ==> StepAt(g, stack, i) by {
        assert StepAt(g, stack, |stack| - 1);
      }
      for i := 0 to |g[n]|
        invariant Valid() && stack == old(stack) + [n] && visiting == old(visiting) + {n}
        invariant old(visited) <= visited
        invariant forall j :: 0 <= j < i ==> g[n][j] in visited
      {
        assert n in g.Keys - old(visiting) - old(visited) && n !in g.Keys - visiting - visited;
        assert g.Keys - visiting - visited <= g.Keys - old(visiting) - old(visited);
        ok := Visit(g[n][i]);
        if !ok {
          return;
        }
      }
      assert forall i :: 0 <= i < |old(stack)| ==> old(stack)[i] == stack[i] && stack[i] !in order;
      visiting := visiting - {n};
      stack := old(stack);
      assert n !in stack && n !in order && order[..|order|] == order;
      FinishOne(g, order, n);
      order := order + [n];
      visited := visited + {n};
      ok := true;
    }
  }

  lemma CycleOnStack(g: Graph, stack: seq<Node>, n: Node)
    requires n in stack && n in g && Edge(g, stack[|stack| - 1], n)
    requires forall i :: StepAt(g, stack, i)
    ensures HasCycle(g)
  {
    var k :| 0 <= k < |stack| && stack[k] == n;
    var p := stack[k..] + [n];
    forall i ensures StepAt(g, p, i) {
      assert StepAt(g, stack, k + i);
    }
    assert IsCycle(g, p);
  }

  /** Visits every node of a closed graph, in any order the caller lists them. */
  method CheckAcyclic(g: Graph, nodes: seq<Node>) returns (ok: bool, ghost rank: map<Node, nat>)
    requires Closed(g) && (forall n :: n in nodes <==> n in g)
    ensures ok <==> !HasCycle(g)
    ensures ok ==> Ranks(g, rank)
  {
    rank := map[];
    var search := new Search(g);
    for i := 0 to |nodes|
      invariant search.Valid() && search.g == g && search.stack == [] && fresh(search)
      invariant forall j :: 0 <= j < i ==> nodes[j] in search.visited
    {
      ok := search.Visit(nodes[i]);
      if !ok {
        return;
      }
    }
    FinishedRanks(g, search.order);
    rank := RankOf(search.order);
    RankedIsAcyclic(g, rank);
    ok := true;
  }
}
