/** Acceptance of a composition mission proposal: reference checks and the
    prerequisite graph (backend/composition_proposal.py). */
module Proposals {
  import opened DepthFirst

  datatype Step = Step(id: Node, prerequisites: seq<Node>, sources: seq<Node>)

  datatype ProposalError =
    | InvalidStepCount | DuplicateStepIds | InvalidReferences | StepCycle | SourceNotPrerequisite

  const MAX_STEPS := 8

  function Ids(steps: seq<Step>): set<Node> {
    set i | 0 <= i < |steps| :: steps[i].id
  }

  ghost predicate UniqueIds(steps: seq<Step>) {
    forall i, j :: 0 <= i < j < |steps| ==> steps[i].id != steps[j].id
  }

  /** No step refers to itself or to a step that does not exist. */
  predicate GoodReferences(steps: seq<Step>, s: Step) {
    var refs := (set p | p in s.prerequisites) + (set q | q in s.sources);
    s.id !in refs && refs <= Ids(steps)
  }

  /** The prerequisite edges, as the search reads them. */
  function PrerequisiteGraph(steps: seq<Step>): (g: Graph)
    ensures g.Keys == Ids(steps)
  {
    if steps == [] then map[]
    else
      var last := steps[|steps| - 1];
      assert Ids(steps) == Ids(steps[..|steps| - 1]) + {last.id} by {
        assert steps == steps[..|steps| - 1] + [last];
      }
      PrerequisiteGraph(steps[..|steps| - 1])[last.id := last.prerequisites]
  }

  lemma {:induction false} GraphEntry(steps: seq<Step>, i: nat)
    requires UniqueIds(steps) && i < |steps|
    ensures steps[i].id in PrerequisiteGraph(steps)
    ensures PrerequisiteGraph(steps)[steps[i].id] == steps[i].prerequisites
  {
    if i < |steps| - 1 {
      GraphEntry(steps[..|steps| - 1], i);
    }
  }

  /** Data flow and order together: an edge for each prerequisite and each result source. */
  ghost predicate DependsOn(steps: seq<Step>, a: Node, b: Node) {
    exists i :: 0 <= i < |steps| && steps[i].id == a && (b in steps[i].prerequisites || b in steps[i].sources)
  }

  ghost predicate SourcesArePrerequisites(steps: seq<Step>) {
    forall i, q :: 0 <= i < |steps| && q in steps[i].sources ==> q in steps[i].prerequisites
  }

  /** What an accepted proposal is. */
  ghost predicate Sound(steps: seq<Step>) {
    && 1 <= |steps| <= MAX_STEPS && UniqueIds(steps)
    && (forall i :: 0 <= i < |steps| ==> GoodReferences(steps, steps[i]))
    && !HasCycle(PrerequisiteGraph(steps))
    && SourcesArePrerequisites(steps)
  }

  lemma ReferencesClose(steps: seq<Step>)
    requires UniqueIds(steps) && forall i :: 0 <= i < |steps| ==> GoodReferences(steps, steps[i])
    ensures Closed(PrerequisiteGraph(steps))
  {
    var g := PrerequisiteGraph(steps);
    forall n, d | n in g && d in g[n] ensures d in g {
      var i :| 0 <= i < |steps| && steps[i].id == n;
      GraphEntry(steps, i);
      assert GoodReferences(steps, steps[i]);
    }
  }

  /** Reference checks, then the depth-first search over prerequisites only. */
  method ValidateGraph(steps: seq<Step>, order: seq<Node>)
    returns (ok: bool, error: ProposalError, ghost rank: map<Node, nat>)
    requires UniqueIds(steps) && (forall n :: n in order <==> n in Ids(steps))
    ensures ok <==>
              (forall i :: 0 <= i < |steps| ==> GoodReferences(steps, steps[i])) && !HasCycle(PrerequisiteGraph(steps))
    ensures !ok ==> (error == InvalidReferences <==> exists i :: 0 <= i < |steps| && !GoodReferences(steps, steps[i]))
    ensures !ok ==> error == InvalidReferences || error == StepCycle
    ensures ok ==> Ranks(PrerequisiteGraph(steps), rank)
  {
    error, rank := StepCycle, map[];
    for i := 0 to |steps|
      invariant forall j :: 0 <= j < i ==> GoodReferences(steps, steps[j])
    {
      if !GoodReferences(steps, steps[i]) {
        return false, InvalidReferences, map[];
      }
    }
    ReferencesClose(steps);
    ok, rank := CheckAcyclic(PrerequisiteGraph(steps), order);
  }

  /** The constructor's graph conditions in the order it applies them. `order` is the
      arbitrary order in which the identifier set is iterated. */
  method AcceptProposal(steps: seq<Step>, order: seq<Node>)
    returns (ok: bool, error: ProposalError, ghost rank: map<Node, nat>)
    requires forall n :: n in order <==> n in Ids(steps)
    ensures ok <==> Sound(steps)
    ensures !ok ==>
              error ==
                if !(1 <= |steps| <= MAX_STEPS) then InvalidStepCount
                else if !UniqueIds(steps) then DuplicateStepIds
                else if exists i :: 0 <= i < |steps| && !GoodReferences(steps, steps[i]) then InvalidReferences
                else if HasCycle(PrerequisiteGraph(steps)) then StepCycle
                else SourceNotPrerequisite
    ensures ok ==> forall a, b :: DependsOn(steps, a, b) ==> a in rank && b in rank && rank[b] < rank[a]
  {
    if !(1 <= |steps| <= MAX_STEPS) {
      return false, InvalidStepCount, map[];
    }
    for i := 0 to |steps|
      invariant forall a, b :: 0 <= a < b < i ==> steps[a].id != steps[b].id
    {
      if steps[i].id in Ids(steps[..i]) {
        assert exists a :: 0 <= a < i && steps[..i][a].id == steps[i].id;
        return false, DuplicateStepIds, map[];
      }
      assert forall a :: 0 <= a < i ==> steps[..i][a].id in Ids(steps[..i]);
      assert forall a :: 0 <= a < i ==> steps[a] == steps[..i][a];
    }
    ok, error, rank := ValidateGraph(steps, order);
    if !ok {
      return;
    }
    for i := 0 to |steps|
      invariant forall j, q :: 0 <= j < i && q in steps[j].sources ==> q in steps[j].prerequisites
    {
      for k := 0 to |steps[i].sources|
        invariant forall m :: 0 <= m < k ==> steps[i].sources[m] in steps[i].prerequisites
      {
        if steps[i].sources[k] !in steps[i].prerequisites {
          assert steps[i].sources[k] in steps[i].sources;
          return false, SourceNotPrerequisite, map[];
        }
      }
    }
    AcceptedMissionIsAcyclic(steps, rank);
    ok := true;
  }

  /** In an accepted mission prerequisites and result sources together admit one
      topological ranking, so data never flows around a loop. */
  lemma AcceptedMissionIsAcyclic(steps: seq<Step>, rank: map<Node, nat>)
    requires Sound(steps) && Ranks(PrerequisiteGraph(steps), rank)
    ensures forall a, b :: DependsOn(steps, a, b) ==> a in rank && b in rank && rank[b] < rank[a]
  {
    var g := PrerequisiteGraph(steps);
    forall a, b | DependsOn(steps, a, b) ensures a in rank && b in rank && rank[b] < rank[a] {
      var i :| 0 <= i < |steps| && steps[i].id == a && (b in steps[i].prerequisites || b in steps[i].sources);
      GraphEntry(steps, i);
      assert Edge(g, a, b);
    }
  }

  /** The graph check alone does not see result sources: two steps may read each
      other's results and pass it; only the later source check refuses them. */
  lemma GraphCheckIgnoresSources()
    ensures var steps := [Step("a", [], ["b"]), Step("b", [], ["a"])];
            && (forall i :: 0 <= i < |steps| ==> GoodReferences(steps, steps[i]))
            && !HasCycle(PrerequisiteGraph(steps))
            && DependsOn(steps, "a", "b") && DependsOn(steps, "b", "a") && !Sound(steps)
  {
    var x, y := Step("a", [], ["b"]), Step("b", [], ["a"]);
    var steps := [x, y];
    assert steps[0] == x && steps[1] == y && UniqueIds(steps);
    assert "a" in Ids(steps) && "b" in Ids(steps);
    GraphEntry(steps, 0);
    GraphEntry(steps, 1);
    var g := PrerequisiteGraph(steps);
    assert g.Keys == {"a", "b"};
    RankedIsAcyclic(g, map["a" := 0, "b" := 0]);
    assert "b" in steps[0].sources && "a" in steps[1].sources;
  }
}
