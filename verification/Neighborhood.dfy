/** Bounded expansion of a component neighbourhood (backend/continuous_builder/context_engine.py). */
module Neighborhood {

  datatype Tag = Required | Supporting

  /** The other ends of the dependency and dependent edges of a component; an edge without one has "". */
  datatype Edges = Edges(targets: string -> seq<string>, sources: string -> seq<string>)

  /** The components one undirected hop away. */
  function Neighbours(e: Edges, id: string): set<string> {
    set x | x in e.targets(id) + e.sources(id) && x != ""
  }

  /** `x` can be reached from a seed in at most `depth` hops. */
  ghost predicate Within(e: Edges, seeds: seq<string>, depth: nat, x: string) {
    if depth == 0 then x in seeds
    else
      var nearer := depth - 1;
      Within(e, seeds, nearer, x) || exists y :: Within(e, seeds, nearer, y) && x in Neighbours(e, y)
  }

  lemma {:induction false} WithinGrows(e: Edges, seeds: seq<string>, a: nat, b: nat, x: string)
    requires a <= b && Within(e, seeds, a, x)
    ensures Within(e, seeds, b, x)
  {
    if a < b {
      WithinGrows(e, seeds, a, b - 1, x);
    }
  }

  lemma WithinLast(e: Edges, seeds: seq<string>, depth: nat, x: string)
    ensures Within(e, seeds, depth + 1, x) <==>
              Within(e, seeds, depth, x) || exists y :: Within(e, seeds, depth, y) && x in Neighbours(e, y)
  {
  }

  ghost predicate Closed(e: Edges, s: set<string>) {
    forall y :: y in s ==> Neighbours(e, y) <= s
  }

  ghost predicate IsLevel(e: Edges, seeds: seq<string>, depth: nat, s: set<string>) {
    forall x :: x in s <==> Within(e, seeds, depth, x)
  }

  /** Once nothing new is reached, more hops reach nothing new either. */
  lemma {:induction false} ClosedLevelStays(e: Edges, seeds: seq<string>, a: nat, b: nat, s: set<string>)
    requires a <= b && IsLevel(e, seeds, a, s) && Closed(e, s)
    ensures IsLevel(e, seeds, b, s)
  {
    if a < b {
      ClosedLevelStays(e, seeds, a, b - 1, s);
      forall x
        ensures x in s <==> Within(e, seeds, b, x)
      {
        if Within(e, seeds, b, x) {
          WithinLast(e, seeds, b - 1, x);
        }
      }
    }
  }

  type Selection = map<string, Tag>

  /** `now` adds supporting components to `was` and keeps every earlier tag. */
  ghost predicate Extends(was: Selection, now: Selection) {
    && was.Keys <= now.Keys
    && forall x :: x in now ==> now[x] == if x in was then was[x] else Supporting
  }

  /** Selects the unselected ends of some edges. */
  method SelectEnds(ends: seq<string>, was: Selection, pending: seq<string>) returns (now: Selection, next: seq<string>)
    ensures Extends(was, now) && now.Keys == was.Keys + set x | x in ends && x != ""
    ensures forall x :: x in next <==> x in pending || (x in now && x !in was)
  {
    now, next := was, pending;
    for k := 0 to |ends|
      invariant Extends(was, now) && now.Keys == was.Keys + set x | x in ends[..k] && x != ""
      invariant forall x :: x in next <==> x in pending || (x in now && x !in was)
    {
      assert forall x :: x in ends[..k + 1] <==> x in ends[..k] || x == ends[k];
      if ends[k] != "" && ends[k] !in now {
        now := now[ends[k] := Supporting];
        next := next + [ends[k]];
      }
    }
    assert ends[..|ends|] == ends;
  }

  ghost function Reached(e: Edges, frontier: seq<string>): set<string> {
    if frontier == [] then {} else Reached(e, frontier[..|frontier| - 1]) + Neighbours(e, frontier[|frontier| - 1])
  }

  lemma {:induction false} ReachedMeans(e: Edges, frontier: seq<string>, x: string)
    ensures x in Reached(e, frontier) <==> exists y :: y in frontier && x in Neighbours(e, y)
  {
    if frontier != [] {
      var front, last := frontier[..|frontier| - 1], frontier[|frontier| - 1];
      assert frontier == front + [last];
      ReachedMeans(e, front, x);
    }
  }

  lemma {:induction false} ReachedGrows(e: Edges, frontier: seq<string>, k: nat)
    requires k <= |frontier|
    ensures Reached(e, frontier[..k]) <= Reached(e, frontier)
  {
    if k == |frontier| {
      assert frontier[..k] == frontier;
    } else {
      ReachedGrows(e, frontier[..|frontier| - 1], k);
      assert frontier[..|frontier| - 1][..k] == frontier[..k];
    }
  }

  /** The pending components are those selected since `was`. */
  ghost predicate Grown(was: Selection, now: Selection, pending: seq<string>) {
    Extends(was, now) && forall x :: x in pending <==> x in now && x !in was
  }

  method ExpandNode(e: Edges, id: string, ghost was: Selection, mid: Selection, pending: seq<string>)
    returns (now: Selection, next: seq<string>)
    requires Grown(was, mid, pending)
    ensures Grown(was, now, next) && now.Keys == mid.Keys + Neighbours(e, id)
  {
    var half, some := SelectEnds(e.targets(id), mid, pending);
    assert Grown(was, half, some);
    now, next := SelectEnds(e.sources(id), half, some);
    assert now.Keys == mid.Keys + Neighbours(e, id);
  }

  /** Whether a selection has met the component bound. */
  type Bound = Selection -> bool

  /** `now` holds what `mid` held and the neighbours of one more component of it. */
  ghost predicate OneNodeMore(e: Edges, mid: Selection, id: string, now: Selection) {
    id in mid && now.Keys == mid.Keys + Neighbours(e, id)
  }

  /** One node took the selection from below the bound to where it is. */
  ghost predicate CrossedAtOneNode(e: Edges, full: Bound, now: Selection) {
    exists mid: Selection, id: string :: !full(mid) && OneNodeMore(e, mid, id, now)
  }

  /** One level of the expansion; `stopped` when the component bound was met on the way, and then either
      before the first node or by the neighbours of the last one. */
  method ExpandLevel(e: Edges, frontier: seq<string>, was: Selection, full: Bound)
    returns (stopped: bool, now: Selection, next: seq<string>)
    requires forall x :: x in frontier ==> x in was
    ensures stopped ==> (now == was && full(was)) || CrossedAtOneNode(e, full, now)
    ensures !stopped ==> now == was || !full(now)
    ensures Grown(was, now, next) && now.Keys <= was.Keys + Reached(e, frontier)
    ensures stopped ==> full(now)
    ensures !stopped ==> now.Keys == was.Keys + Reached(e, frontier)
  {
    now, next := was, [];
    for k := 0 to |frontier|
      invariant Grown(was, now, next) && now.Keys == was.Keys + Reached(e, frontier[..k])
      invariant now == was || !full(now)
    {
      assert frontier[..k + 1][..k] == frontier[..k];
      ReachedGrows(e, frontier, k);
      ReachedGrows(e, frontier, k + 1);
      if full(now) {
        return true, now, next;
      }
      ghost var mid := now;
      now, next := ExpandNode(e, frontier[k], was, now, next);
      assert OneNodeMore(e, mid, frontier[k], now);
      if full(now) {
        return true, now, next;
      }
    }
    assert frontier[..|frontier|] == frontier;
    stopped := false;
  }

  /** The frontier is selected, and everything selected outside it has been expanded. */
  ghost predicate Explored(e: Edges, selected: Selection, frontier: seq<string>) {
    && (forall x :: x in frontier ==> x in selected)
    && (forall y :: y in selected && y !in frontier ==> Neighbours(e, y) <= selected.Keys)
  }

  lemma LevelAdvances(e: Edges, seeds: seq<string>, depth: nat, was: Selection, frontier: seq<string>, now: set<string>)
    requires IsLevel(e, seeds, depth, was.Keys) && Explored(e, was, frontier)
    ensures now <= was.Keys + Reached(e, frontier) ==> forall x :: x in now ==> Within(e, seeds, depth + 1, x)
    ensures now == was.Keys + Reached(e, frontier) ==> IsLevel(e, seeds, depth + 1, now)
  {
    forall x | x in was.Keys + Reached(e, frontier)
      ensures Within(e, seeds, depth + 1, x)
    {
      ReachedMeans(e, frontier, x);
      if x !in was {
        var y :| y in frontier && x in Neighbours(e, y);
        assert Within(e, seeds, depth, y);
      }
    }
    forall x | Within(e, seeds, depth + 1, x)
      ensures x in was.Keys + Reached(e, frontier)
    {
      WithinLast(e, seeds, depth, x);
      ReachedMeans(e, frontier, x);
      if x !in was {
        var y :| Within(e, seeds, depth, y) && x in Neighbours(e, y);
        assert y in was;
      }
    }
  }

  lemma NewFrontierExplored(e: Edges, was: Selection, frontier: seq<string>, now: Selection, next: seq<string>)
    requires Explored(e, was, frontier) && Grown(was, now, next) && now.Keys == was.Keys + Reached(e, frontier)
    ensures Explored(e, now, next)
  {
    forall y, x | y in now && y !in next && x in Neighbours(e, y)
      ensures x in now
    {
      ReachedMeans(e, frontier, x);
    }
  }

  /** Seeds are required and everything else is supporting. */
  ghost predicate Tagged(seeds: seq<string>, selected: Selection) {
    && (forall x :: x in seeds ==> x in selected)
    && (forall x :: x in selected ==> selected[x] == if x in seeds then Required else Supporting)
  }

  /** How many hops a depth setting allows. */
  function Hops(depth: int): nat {
    if depth < 0 then 0 else depth
  }

  method SelectSeeds(seeds: seq<string>) returns (selected: Selection)
    ensures Tagged(seeds, selected) && selected.Keys == set x | x in seeds
  {
    selected := map[];
    for k := 0 to |seeds|
      invariant Tagged(seeds[..k], selected) && selected.Keys == set x | x in seeds[..k]
    {
      assert forall x :: x in seeds[..k + 1] <==> x in seeds[..k] || x == seeds[k];
      selected := selected[seeds[k] := Required];
    }
    assert seeds[..|seeds|] == seeds;
  }

  /** Selects only components within the allowed hops of a seed; unless the component bound was
      met, selects all of them. */
  method Expand(e: Edges, seeds: seq<string>, hops: nat, full: Bound) returns (selected: Selection, truncated: bool)
    ensures Tagged(seeds, selected)
    ensures forall x :: x in selected ==> Within(e, seeds, hops, x)
    ensures truncated <==> full(selected)
    ensures !truncated ==> IsLevel(e, seeds, hops, selected.Keys)
    ensures truncated ==> selected.Keys == (set x | x in seeds) || CrossedAtOneNode(e, full, selected)
  {
    selected := SelectSeeds(seeds);
    var frontier := seeds;
    for level := 0 to hops
      invariant Tagged(seeds, selected) && IsLevel(e, seeds, level, selected.Keys) && Explored(e, selected, frontier)
      invariant selected.Keys == (set x | x in seeds) || !full(selected)
    {
      var stopped, now, next := ExpandLevel(e, frontier, selected, full);
      LevelAdvances(e, seeds, level, selected, frontier, now.Keys);
      assert Tagged(seeds, now);
      if stopped {
        forall x | x in now
          ensures Within(e, seeds, hops, x)
        {
          WithinGrows(e, seeds, level + 1, hops, x);
        }
        return now, true;
      }
      NewFrontierExplored(e, selected, frontier, now, next);
      selected, frontier := now, next;
      if frontier == [] {
        ClosedLevelStays(e, seeds, level + 1, hops, selected.Keys);
        break;
      }
    }
    truncated := full(selected);
  }

  /** The selection exceeds the bound by less than the neighbours of one component within it. */
  ghost predicate Overshoots(e: Edges, limit: int, selected: Selection) {
    exists mid: Selection, id: string ::
      |mid| < limit && OneNodeMore(e, mid, id, selected) && |selected| < limit + |Neighbours(e, id)|
  }

  /** A truncated selection is the seeds, or the bound was crossed by the neighbours of the last node. */
  method ExpandComponentNeighborhood(e: Edges, seeds: seq<string>, depth: int, limit: int)
    returns (selected: Selection, truncated: bool)
    ensures Tagged(seeds, selected)
    ensures forall x :: x in selected ==> Within(e, seeds, Hops(depth), x)
    ensures truncated <==> |selected| >= limit
    ensures !truncated ==> IsLevel(e, seeds, Hops(depth), selected.Keys)
    ensures truncated ==> selected.Keys == (set x | x in seeds) || Overshoots(e, limit, selected)
  {
    var full: Bound := (s: Selection) => |s| >= limit;
    selected, truncated := Expand(e, seeds, Hops(depth), full);
    if CrossedAtOneNode(e, full, selected) {
      CrossingIsBounded(e, limit, full, selected);
    }
  }

  lemma CrossingIsBounded(e: Edges, limit: int, full: Bound, selected: Selection)
    requires (forall s :: full(s) <==> |s| >= limit) && CrossedAtOneNode(e, full, selected)
    ensures Overshoots(e, limit, selected)
  {
    var mid: Selection, id: string :| !full(mid) && OneNodeMore(e, mid, id, selected);
    UnionCardinality(mid.Keys, Neighbours(e, id));
    assert |mid.Keys| == |mid| && |selected.Keys| == |selected|;
  }

  lemma {:induction false} UnionCardinality(a: set<string>, b: set<string>)
    ensures |a + b| <= |a| + |b|
  {
    assert a + b == a + (b - a) && |a + (b - a)| == |a| + |b - a|;
    SubsetCardinality(b - a, b);
  }

  lemma {:induction false} SubsetCardinality(a: set<string>, b: set<string>)
    requires a <= b
    ensures |a| <= |b|
  {
    if x :| x in a {
      SubsetCardinality(a - {x}, b - {x});
    }
  }

  /** The expansion reports truncation exactly when at least `limit` components lie within reach. */
  lemma TruncatedExactly(e: Edges, seeds: seq<string>, depth: int, limit: int, selected: Selection, truncated: bool,
                         all: set<string>)
    requires forall x :: x in selected ==> Within(e, seeds, Hops(depth), x)
    requires truncated <==> |selected| >= limit
    requires !truncated ==> IsLevel(e, seeds, Hops(depth), selected.Keys)
    requires IsLevel(e, seeds, Hops(depth), all)
    ensures truncated <==> |all| >= limit
  {
    if truncated {
      SubsetCardinality(selected.Keys, all);
      assert |selected.Keys| == |selected|;
    } else {
      assert selected.Keys == all;
      assert |selected.Keys| == |selected|;
    }
  }
}
