/** Planning which files a context package shows and assembling it within its byte budget
    (backend/continuous_builder/context_engine.py). */
module Packaging {
  import opened PyText

  datatype Tag = Required | Supporting | Possible | Omitted | Unknown

  datatype Item = Item(path: Option<string>, component: Option<string>, tag: Tag)

  /** Why something is uncertain. */
  datatype Kind =
    | RestrictedPath | MissingSource | AmbiguousOwnership | UnknownOwnership | RestrictedSecret
    | BudgetExhausted | ModelUncertainty | ParseFailure | CriticalMissing

  /** Declared paths; the scope's own constructor keeps them distinct and apart from the forbidden ones. */
  datatype Scope = Scope(seeds: seq<string>, allowed: seq<string>, forbidden: set<string>, components: seq<string>)

  predicate ScopeOk(s: Scope) {
    && (forall i, j :: 0 <= i < j < |s.seeds| ==> s.seeds[i] != s.seeds[j])
    && (forall i, j :: 0 <= i < j < |s.allowed| ==> s.allowed[i] != s.allowed[j])
    && (forall i :: 0 <= i < |s.seeds| ==> s.seeds[i] !in s.forbidden)
    && (forall i :: 0 <= i < |s.allowed| ==> s.allowed[i] !in s.forbidden)
  }

  datatype Owner = UnknownOwner | Ambiguous | Excluded | Component(id: string)

  datatype FileKind = Code | Test | ArchitectureDoc | OtherDoc

  /** The system model as the planner consults it. */
  datatype Model = Model(
    inventory: set<string>, owner: string -> Owner, secret: string -> bool,
    kindOf: string -> FileKind, files: string -> seq<string>)

  // ----- planning -----------------------------------------------------------------------------

  /** The paths of the required items, in order. */
  function RequiredPaths(items: seq<Item>): seq<string> {
    if items == [] then []
    else
      var last := items[|items| - 1];
      RequiredPaths(items[..|items| - 1]) + (if last.tag == Required && last.path.Some? then [last.path.value] else [])
  }

  predicate Distinct(paths: seq<string>) {
    forall i, j :: 0 <= i < j < |paths| ==> paths[i] != paths[j]
  }

  /** No path is secret or forbidden. */
  ghost predicate Showable(m: Model, s: Scope, paths: seq<string>) {
    forall i :: 0 <= i < |paths| ==> !m.secret(paths[i]) && paths[i] !in s.forbidden
  }

  /** Required paths are distinct, have been seen, and may all be shown. */
  ghost predicate PlanOk(m: Model, s: Scope, items: seq<Item>, seen: set<string>) {
    var paths := RequiredPaths(items);
    Distinct(paths) && Showable(m, s, paths) && forall i :: 0 <= i < |paths| ==> paths[i] in seen
  }

  lemma PlanPush(m: Model, s: Scope, items: seq<Item>, seen: set<string>, item: Item)
    requires PlanOk(m, s, items, seen) && item.path.Some? && item.path.value !in seen
    requires item.tag == Required ==> !m.secret(item.path.value) && item.path.value !in s.forbidden
    ensures PlanOk(m, s, items + [item], seen + {item.path.value})
    ensures RequiredPaths(items + [item]) ==
              RequiredPaths(items) + if item.tag == Required then [item.path.value] else []
  {
    assert (items + [item])[..|items|] == items;
  }

  lemma PlanPushQuiet(m: Model, s: Scope, items: seq<Item>, seen: set<string>, item: Item)
    requires PlanOk(m, s, items, seen) && (item.tag != Required || item.path.None?)
    ensures PlanOk(m, s, items + [item], seen) && RequiredPaths(items + [item]) == RequiredPaths(items)
  {
    assert (items + [item])[..|items|] == items;
  }

  /** A seed in the inventory, owned by one component and not secret. */
  predicate OwnedSeed(m: Model, path: string) {
    path in m.inventory && m.owner(path).Component? && !m.secret(path)
  }

  /** The owned ones among `seeds` are all required. */
  ghost predicate SeedsRequired(m: Model, seeds: seq<string>, items: seq<Item>) {
    forall i :: 0 <= i < |seeds| && OwnedSeed(m, seeds[i]) ==> seeds[i] in RequiredPaths(items)
  }

  /** One seed path: required when owned, otherwise shown with the doubt recorded. */
  method PlanSeed(m: Model, s: Scope, path: string, items0: seq<Item>, seen0: set<string>, kinds0: seq<Kind>)
    returns (items: seq<Item>, seen: set<string>, kinds: seq<Kind>)
    requires PlanOk(m, s, items0, seen0) && path !in seen0 && path !in s.forbidden && CriticalMissing !in kinds0
    ensures PlanOk(m, s, items, seen) && |seen| <= |seen0| + 1 && CriticalMissing !in kinds
    ensures forall x :: x in seen ==> x in seen0 || x == path
    ensures RequiredPaths(items) == RequiredPaths(items0) + if OwnedSeed(m, path) then [path] else []
  {
    if path !in m.inventory {
      PlanPushQuiet(m, s, items0, seen0, Item(Some(path), None, Unknown));
      return items0 + [Item(Some(path), None, Unknown)], seen0, kinds0 + [MissingSource];
    }
    kinds := kinds0;
    var owner := m.owner(path);
    var component := if owner.Component? then Some(owner.id) else None;
    var tag := if owner.Component? then Required else if owner.UnknownOwner? then Unknown else Possible;
    if !owner.Component? {
      kinds := kinds + [if owner.Ambiguous? then AmbiguousOwnership else UnknownOwnership];
    }
    if m.secret(path) {
      kinds := kinds + [RestrictedSecret];
      tag := Omitted;
    }
    PlanPush(m, s, items0, seen0, Item(Some(path), component, tag));
    items, seen := items0 + [Item(Some(path), component, tag)], seen0 + {path};
  }

  method PlanSeeds(m: Model, s: Scope) returns (items: seq<Item>, seen: set<string>, kinds: seq<Kind>)
    requires ScopeOk(s)
    ensures PlanOk(m, s, items, seen) && |seen| <= |s.seeds| && CriticalMissing !in kinds
    ensures forall x :: x in seen ==> x in s.seeds
    ensures SeedsRequired(m, s.seeds, items)
    ensures forall path :: path in RequiredPaths(items) ==> path in s.seeds && OwnedSeed(m, path)
  {
    items, seen, kinds := [], {}, [];
    for k := 0 to |s.seeds|
      invariant PlanOk(m, s, items, seen) && |seen| <= k && CriticalMissing !in kinds
      invariant forall path :: path in RequiredPaths(items) ==> path in s.seeds && OwnedSeed(m, path)
      invariant forall x :: x in seen ==> x in s.seeds[..k]
      invariant SeedsRequired(m, s.seeds[..k], items)
    {
      assert s.seeds[..k + 1] == s.seeds[..k] + [s.seeds[k]] && s.seeds[k] !in seen;
      ghost var before := items;
      items, seen, kinds := PlanSeed(m, s, s.seeds[k], items, seen, kinds);
      SeedsPush(m, s.seeds[..k], s.seeds[k], before, items);
    }
    assert s.seeds[..|s.seeds|] == s.seeds;
  }

  lemma SeedsPush(m: Model, seeds: seq<string>, path: string, before: seq<Item>, after: seq<Item>)
    requires SeedsRequired(m, seeds, before)
    requires RequiredPaths(after) == RequiredPaths(before) + if OwnedSeed(m, path) then [path] else []
    ensures SeedsRequired(m, seeds + [path], after)
  {
  }

  /** An inventory path that is not secret. */
  predicate Editable(m: Model, path: string) {
    path in m.inventory && !m.secret(path)
  }

  /** Allowed paths not seeded: declared editable intent, so required. */
  method PlanAllowed(m: Model, s: Scope, items0: seq<Item>, seen0: set<string>, kinds0: seq<Kind>)
    returns (items: seq<Item>, seen: set<string>, kinds: seq<Kind>)
    requires ScopeOk(s) && PlanOk(m, s, items0, seen0) && CriticalMissing !in kinds0
    ensures PlanOk(m, s, items, seen) && |seen| <= |seen0| + |s.allowed| && CriticalMissing !in kinds
    ensures RequiredPaths(items0) <= RequiredPaths(items)
    ensures forall path :: path in RequiredPaths(items) ==>
              path in RequiredPaths(items0) || (path in s.allowed && Editable(m, path))
    ensures forall path :: path in s.allowed && Editable(m, path) ==> path in RequiredPaths(items) || path in seen0
  {
    items, seen, kinds := items0, seen0, kinds0;
    for k := 0 to |s.allowed|
      invariant PlanOk(m, s, items, seen) && |seen| <= |seen0| + k && CriticalMissing !in kinds
      invariant RequiredPaths(items0) <= RequiredPaths(items)
      invariant forall path :: path in RequiredPaths(items) ==>
                  path in RequiredPaths(items0) || (path in s.allowed && Editable(m, path))
      invariant forall path :: path in seen ==> path in seen0 || path in s.allowed[..k]
      invariant forall i :: 0 <= i < k && Editable(m, s.allowed[i]) ==>
                  s.allowed[i] in RequiredPaths(items) || s.allowed[i] in seen0
    {
      assert s.allowed[..k + 1] == s.allowed[..k] + [s.allowed[k]];
      var path := s.allowed[k];
      if path in seen {
        continue;
      }
      if path !in m.inventory {
        kinds := kinds + [MissingSource];
        continue;
      }
      var item := Item(Some(path), None, Omitted);
      if m.secret(path) {
        kinds := kinds + [RestrictedSecret];
      } else {
        item := Item(Some(path), if m.owner(path).Component? then Some(m.owner(path).id) else None, Required);
      }
      PlanPush(m, s, items, seen, item);
      items, seen := items + [item], seen + {path};
    }
  }

  /** How a neighbourhood file is tagged. */
  function FileTag(m: Model, s: Scope, tag: Tag, path: string): Tag {
    if path in s.forbidden || m.secret(path) then Omitted
    else match m.kindOf(path)
      case Code => if tag == Required then Required else if tag == Supporting then Supporting else Possible
      case Test => Supporting
      case ArchitectureDoc => Supporting
      case OtherDoc => Possible
  }

  predicate CodeOf(m: Model, id: string, path: string) {
    path in m.files(id) && m.kindOf(path) == Code
  }

  /** Why a path may be required: an owned seed, an allowed path, or code of a required component. */
  ghost predicate HasReason(m: Model, s: Scope, neighbourhood: seq<(string, Tag)>, path: string) {
    || (path in s.seeds && OwnedSeed(m, path))
    || (path in s.allowed && Editable(m, path))
    || exists k :: 0 <= k < |neighbourhood| && neighbourhood[k].1 == Required && CodeOf(m, neighbourhood[k].0, path)
  }

  ghost predicate Reasoned(m: Model, s: Scope, neighbourhood: seq<(string, Tag)>, items: seq<Item>) {
    forall path :: path in RequiredPaths(items) ==> HasReason(m, s, neighbourhood, path)
  }

  /** The allowed paths that are not seeds are all required. */
  ghost predicate AllowedRequired(m: Model, s: Scope, items: seq<Item>) {
    forall path :: path in s.allowed && path !in s.seeds && Editable(m, path) ==> path in RequiredPaths(items)
  }

  function Max(a: int, b: int): int {
    if a > b then a else b
  }

  /** The files of one component, until as many paths are seen as excerpts are allowed. */
  method PlanFiles(m: Model, s: Scope, maxExcerpts: int, id: string, tag: Tag, items0: seq<Item>, seen0: set<string>,
                   kinds0: seq<Kind>)
    returns (items: seq<Item>, seen: set<string>, kinds: seq<Kind>)
    requires PlanOk(m, s, items0, seen0) && CriticalMissing !in kinds0
    ensures PlanOk(m, s, items, seen) && |seen| <= Max(|seen0|, maxExcerpts) && CriticalMissing !in kinds
    ensures RequiredPaths(items0) <= RequiredPaths(items)
    ensures forall path :: path in RequiredPaths(items) ==>
              path in RequiredPaths(items0) || (tag == Required && CodeOf(m, id, path))
  {
    items, seen, kinds := items0, seen0, kinds0;
    var files := m.files(id);
    for k := 0 to |files|
      invariant PlanOk(m, s, items, seen) && |seen| <= Max(|seen0|, maxExcerpts) && CriticalMissing !in kinds
      invariant RequiredPaths(items0) <= RequiredPaths(items)
      invariant forall path :: path in RequiredPaths(items) ==>
                  path in RequiredPaths(items0) || (tag == Required && CodeOf(m, id, path))
    {
      if |seen| >= maxExcerpts {
        kinds := kinds + [BudgetExhausted];
        break;
      }
      var path := files[k];
      if path !in seen {
        var item := Item(Some(path), Some(id), FileTag(m, s, tag, path));
        PlanPush(m, s, items, seen, item);
        items, seen := items + [item], seen + {path};
      }
    }
  }

  method HasComponent(items: seq<Item>, id: string) returns (found: bool)
    ensures found <==> exists i :: 0 <= i < |items| && items[i].component == Some(id)
  {
    for k := 0 to |items|
      invariant forall i :: 0 <= i < k ==> items[i].component != Some(id)
    {
      if items[k].component == Some(id) {
        return true;
      }
    }
    found := false;
  }

  /** Plans for any neighbourhood and any impact. With no more seed and allowed paths than excerpts,
      every required path can get an excerpt. */
  method PlanContextSelection(m: Model, s: Scope, maxExcerpts: int, seedComponents: seq<string>,
                              neighbourhood: seq<(string, Tag)>, truncated: bool, uncertainImpact: nat)
    returns (items: seq<Item>, kinds: seq<Kind>)
    requires ScopeOk(s)
    ensures Distinct(RequiredPaths(items)) && Showable(m, s, RequiredPaths(items))
    ensures |RequiredPaths(items)| <= Max(|s.seeds| + |s.allowed|, maxExcerpts)
    ensures SeedsRequired(m, s.seeds, items) && AllowedRequired(m, s, items)
    ensures Reasoned(m, s, neighbourhood, items)
    ensures CriticalMissing !in kinds
  {
    var seen;
    items, seen, kinds := PlanSeeds(m, s);
    items, seen, kinds := PlanAllowed(m, s, items, seen, kinds);
    if truncated {
      kinds := kinds + [BudgetExhausted];
    }
    kinds := kinds + seq(uncertainImpact, i => ModelUncertainty);
    var bound := Max(|s.seeds| + |s.allowed|, maxExcerpts);
    for k := 0 to |neighbourhood|
      invariant PlanOk(m, s, items, seen) && |seen| <= bound && CriticalMissing !in kinds
      invariant SeedsRequired(m, s.seeds, items) && AllowedRequired(m, s, items)
      invariant Reasoned(m, s, neighbourhood, items)
    {
      items, seen, kinds := PlanFiles(m, s, maxExcerpts, neighbourhood[k].0, neighbourhood[k].1, items, seen, kinds);
      if |seen| >= maxExcerpts {
        break;
      }
    }
    for k := 0 to |seedComponents|
      invariant PlanOk(m, s, items, seen) && SeedsRequired(m, s.seeds, items) && AllowedRequired(m, s, items)
      invariant Reasoned(m, s, neighbourhood, items)
    {
      var listed := HasComponent(items, seedComponents[k]);
      if !listed {
        var item := Item(None, Some(seedComponents[k]), Required);
        PlanPushQuiet(m, s, items, seen, item);
        items := items + [item];
      }
    }
    DistinctWithin(RequiredPaths(items), seen);
  }

  lemma {:induction false} DistinctWithin(paths: seq<string>, seen: set<string>)
    requires Distinct(paths) && forall i :: 0 <= i < |paths| ==> paths[i] in seen
    ensures |paths| <= |seen|
  {
    if paths != [] {
      DistinctWithin(paths[..|paths| - 1], seen - {paths[|paths| - 1]});
    }
  }

  // ----- assembling -------------------------------------------------------------------------------

  /** An extracted excerpt; an unavailable one may have been withheld as a secret. */
  datatype Excerpt = Excerpt(path: string, available: bool, withheld: bool, size: nat)

  /** A summary with its size; `broken` when the source could not be parsed. */
  datatype Piece = Piece(size: nat, broken: bool)

  function Sizes(pieces: seq<Piece>): nat {
    if pieces == [] then 0 else Sizes(pieces[..|pieces| - 1]) + pieces[|pieces| - 1].size
  }

  function ExcerptSizes(excerpts: seq<Excerpt>): nat {
    if excerpts == [] then 0 else ExcerptSizes(excerpts[..|excerpts| - 1]) + excerpts[|excerpts| - 1].size
  }

  lemma SizesPush(pieces: seq<Piece>, p: Piece)
    ensures Sizes(pieces + [p]) == Sizes(pieces) + p.size
  {
    assert (pieces + [p])[..|pieces|] == pieces;
  }

  lemma {:induction false} SizesGrow(pieces: seq<Piece>, k: nat)
    requires k <= |pieces|
    ensures Sizes(pieces[..k]) <= Sizes(pieces)
  {
    if k == |pieces| {
      assert pieces[..k] == pieces;
    } else {
      SizesGrow(pieces[..|pieces| - 1], k);
      assert pieces[..|pieces| - 1][..k] == pieces[..k];
    }
  }

  lemma {:induction false} SizesAppend(a: seq<Piece>, b: seq<Piece>)
    ensures Sizes(a + b) == Sizes(a) + Sizes(b)
  {
    if b == [] {
      assert a + b == a;
    } else {
      assert (a + b)[..|a + b| - 1] == a + b[..|b| - 1];
      SizesAppend(a, b[..|b| - 1]);
    }
  }

  lemma SliceStep(list: seq<Piece>, k: nat)
    requires k < |list|
    ensures list[..k + 1] == list[..k] + [list[k]]
  {
  }

  lemma SizesStep(list: seq<Piece>, k: nat)
    requires k < |list|
    ensures list[..k + 1] == list[..k] + [list[k]]
    ensures Sizes(list[..k + 1]) == Sizes(list[..k]) + list[k].size && Sizes(list[..k + 1]) <= Sizes(list)
  {
    SliceStep(list, k);
    SizesGrow(list, k + 1);
    var front, piece := list[..k], list[k];
    SizesPush(front, piece);
  }

  /** Pieces of all these sizes are in. */
  predicate Holds(pieces: seq<Piece>, sizes: seq<nat>) {
    forall k :: 0 <= k < |sizes| ==> Piece(sizes[k], false) in pieces
  }

  lemma ExcerptSizesPush(excerpts: seq<Excerpt>, e: Excerpt)
    ensures ExcerptSizes(excerpts + [e]) == ExcerptSizes(excerpts) + e.size
  {
    assert (excerpts + [e])[..|excerpts|] == excerpts;
  }

  /** Sizes and contents as extraction reports them. */
  datatype Sources = Sources(
    excerpt: string -> Excerpt, editableSize: string -> nat, warningSize: string -> Option<nat>,
    envelope: seq<nat>, interfaces: seq<Piece>, dependencies: seq<Piece>, tests: seq<Piece>, architecture: seq<Piece>)

  function Warned(x: Sources, path: string): nat {
    if x.warningSize(path).Some? then x.warningSize(path).value else 0
  }

  /** The bytes that showing, or referring to, these paths takes at most. */
  function NeedShown(x: Sources, paths: seq<string>): nat {
    if paths == [] then 0
    else
      var last := paths[|paths| - 1];
      NeedShown(x, paths[..|paths| - 1]) + x.excerpt(last).size + Warned(x, last)
  }

  function NeedEditable(x: Sources, paths: seq<string>): nat {
    if paths == [] then 0
    else
      var last := paths[|paths| - 1];
      NeedEditable(x, paths[..|paths| - 1]) + x.editableSize(last) + Warned(x, last)
  }

  function NeedEnvelope(sizes: seq<nat>): nat {
    if sizes == [] then 0 else NeedEnvelope(sizes[..|sizes| - 1]) + sizes[|sizes| - 1]
  }

  lemma {:induction false} NeedsGrow(x: Sources, paths: seq<string>, k: nat)
    requires k <= |paths|
    ensures NeedShown(x, paths[..k]) <= NeedShown(x, paths) && NeedEditable(x, paths[..k]) <= NeedEditable(x, paths)
  {
    if k == |paths| {
      assert paths[..k] == paths;
    } else {
      NeedsGrow(x, paths[..|paths| - 1], k);
      assert paths[..|paths| - 1][..k] == paths[..k];
    }
  }

  lemma {:induction false} EnvelopeGrows(sizes: seq<nat>, k: nat)
    requires k <= |sizes|
    ensures NeedEnvelope(sizes[..k]) <= NeedEnvelope(sizes)
  {
    if k == |sizes| {
      assert sizes[..k] == sizes;
    } else {
      EnvelopeGrows(sizes[..|sizes| - 1], k);
      assert sizes[..|sizes| - 1][..k] == sizes[..k];
    }
  }

  lemma EnvelopePush(sizes: seq<nat>, size: nat)
    ensures NeedEnvelope(sizes + [size]) == NeedEnvelope(sizes) + size
  {
    assert (sizes + [size])[..|sizes|] == sizes;
  }

  lemma EnvelopeSlice(sizes: seq<nat>, k: nat, front: seq<nat>, both: seq<nat>)
    requires k < |sizes| && front == sizes[..k] && both == sizes[..k + 1]
    ensures both == front + [sizes[k]]
  {
  }

  lemma EnvelopeStep(sizes: seq<nat>, k: nat)
    requires k < |sizes|
    ensures sizes[..k + 1] == sizes[..k] + [sizes[k]]
    ensures NeedEnvelope(sizes[..k + 1]) == NeedEnvelope(sizes[..k]) + sizes[k]
    ensures NeedEnvelope(sizes[..k + 1]) <= NeedEnvelope(sizes)
  {
    EnvelopeSlice(sizes, k, sizes[..k], sizes[..k + 1]);
    EnvelopePush(sizes[..k], sizes[k]);
    EnvelopeGrows(sizes, k + 1);
  }

  /** There is room for everything critical and every required excerpt can be extracted. */
  ghost predicate Ample(x: Sources, allowed: seq<string>, paths: seq<string>, budget: nat) {
    Extractable(x, paths) && NeedEnvelope(x.envelope) + NeedEditable(x, allowed) + NeedShown(x, paths) <= budget
  }

  ghost predicate Extractable(x: Sources, paths: seq<string>) {
    forall i :: 0 <= i < |paths| ==> x.excerpt(paths[i]).available
  }

  lemma NeedStep(x: Sources, paths: seq<string>, k: nat)
    requires k < |paths|
    ensures NeedShown(x, paths[..k + 1]) == NeedShown(x, paths[..k]) + x.excerpt(paths[k]).size + Warned(x, paths[k])
    ensures NeedShown(x, paths[..k + 1]) <= NeedShown(x, paths)
  {
    NeedsGrow(x, paths, k + 1);
    assert paths[..k + 1][..k] == paths[..k];
  }

  lemma EditableStep(x: Sources, paths: seq<string>, k: nat)
    requires k < |paths|
    ensures NeedEditable(x, paths[..k + 1]) == NeedEditable(x, paths[..k]) + x.editableSize(paths[k]) + Warned(x,
                                                                                                               paths[k])
    ensures NeedEditable(x, paths[..k + 1]) <= NeedEditable(x, paths)
  {
    NeedsGrow(x, paths, k + 1);
    assert paths[..k + 1][..k] == paths[..k];
  }

  datatype Completeness =
    | Incomplete | Restricted | Conflicting | SufficientWithUncertainty | UnknownCompleteness | Sufficient

  /** The running package: what was admitted, how many bytes that is, and what went wrong. */
  class Package {
    const budget: nat
    const maxExcerpts: int
    var bytesUsed: nat
    var excerpts: seq<Excerpt>
    var pieces: seq<Piece>
    var kinds: seq<Kind>
    var critical: bool
    var restricted: bool

    /** The byte count is exactly what was admitted, within the budget; critical losses are on record. */
    ghost predicate Valid()
      reads this
    {
      && bytesUsed == ExcerptSizes(excerpts) + Sizes(pieces) && bytesUsed <= budget
      && (critical <==> CriticalMissing in kinds)
      && (|excerpts| <= maxExcerpts || excerpts == [])
    }

    constructor (budget: nat, maxExcerpts: int, kinds: seq<Kind>)
      requires CriticalMissing !in kinds
      ensures Valid() && this.budget == budget && this.maxExcerpts == maxExcerpts
      ensures excerpts == [] && pieces == [] && bytesUsed == 0 && !critical && this.kinds == kinds
    {
      this.budget, this.maxExcerpts, this.kinds := budget, maxExcerpts, kinds;
      bytesUsed, excerpts, pieces, critical, restricted := 0, [], [], false, false;
    }

    method Note(kind: Kind)
      requires Valid() && kind != CriticalMissing
      modifies this`kinds
      ensures Valid() && kinds == old(kinds) + [kind]
    {
      kinds := kinds + [kind];
    }

    method MissCritical()
      requires Valid()
      modifies this`kinds, this`critical
      ensures Valid() && critical
    {
      critical := true;
      kinds := kinds + [CriticalMissing];
    }

    /** Admits a piece if it still fits. */
    method Admit(p: Piece) returns (ok: bool)
      requires Valid()
      modifies this`bytesUsed, this`pieces
      ensures Valid() && ok == (old(bytesUsed) + p.size <= budget)
      ensures pieces == (if ok then old(pieces) + [p] else old(pieces))
      ensures bytesUsed == old(bytesUsed) + if ok then p.size else 0
    {
      ok := bytesUsed + p.size <= budget;
      if ok {
        SizesPush(pieces, p);
        pieces := pieces + [p];
        bytesUsed := bytesUsed + p.size;
      }
    }

    /** A required path that cannot be shown is critical; for any other path a doubt is noted. */
    method Decline(tag: Tag, kind: Kind)
      requires Valid() && kind != CriticalMissing
      modifies this`kinds, this`critical
      ensures Valid() && critical == (old(critical) || tag == Required)
    {
      if tag == Required {
        MissCritical();
      } else {
        Note(kind);
      }
    }

    method Keep(e: Excerpt)
      requires Valid() && bytesUsed + e.size <= budget && |excerpts| < maxExcerpts
      modifies this`bytesUsed, this`excerpts
      ensures Valid() && excerpts == old(excerpts) + [e]
    {
      ExcerptSizesPush(excerpts, e);
      excerpts := excerpts + [e];
      bytesUsed := bytesUsed + e.size;
    }

    /** Adds the excerpt of a path that may be shown, if there is room. A required path that gets no
        available excerpt here leaves the package critical. */
    method AddExcerpt(x: Sources, path: string, tag: Tag, forbidden: set<string>, secret: bool)
      requires Valid()
      modifies this
      ensures Valid() && (old(critical) ==> critical) && old(pieces) <= pieces
      ensures excerpts == old(excerpts) || excerpts == old(excerpts) + [x.excerpt(path)]
      ensures excerpts != old(excerpts) ==> path !in forbidden && !secret
      ensures tag != Required ==> critical == old(critical)
      ensures x.excerpt(path).available && old(bytesUsed) + x.excerpt(path).size + Warned(x, path) <= budget ==>
                critical == old(critical) && bytesUsed <= old(bytesUsed) + x.excerpt(path).size + Warned(x, path)
      ensures tag == Required && !critical && path !in forbidden && !secret && |old(excerpts)| < maxExcerpts ==>
                excerpts == old(excerpts) + [x.excerpt(path)] && x.excerpt(path).available
    {
      if |excerpts| >= maxExcerpts || path in forbidden {
        return;
      }
      if secret {
        restricted := true;
        Note(RestrictedSecret);
        return;
      }
      TakeExcerpt(x, path, tag);
    }

    /** The extracted excerpt is kept if it fits; an unavailable one is kept too, with the loss noted. */
    method TakeExcerpt(x: Sources, path: string, tag: Tag)
      requires Valid() && |excerpts| < maxExcerpts
      modifies this
      ensures Valid() && (old(critical) ==> critical) && old(pieces) <= pieces
      ensures excerpts == old(excerpts) || excerpts == old(excerpts) + [x.excerpt(path)]
      ensures tag != Required ==> critical == old(critical)
      ensures x.excerpt(path).available && old(bytesUsed) + x.excerpt(path).size + Warned(x, path) <= budget ==>
                critical == old(critical) && bytesUsed <= old(bytesUsed) + x.excerpt(path).size + Warned(x, path)
      ensures tag == Required && !critical ==>
                excerpts == old(excerpts) + [x.excerpt(path)] && x.excerpt(path).available
    {
      var e := x.excerpt(path);
      if bytesUsed + e.size > budget {
        Decline(tag, BudgetExhausted);
        return;
      }
      if !e.available {
        restricted := restricted || e.withheld;
        Decline(tag, MissingSource);
      }
      Keep(e);
      if e.available && x.warningSize(path).Some? {
        var admitted := Admit(Piece(x.warningSize(path).value, false));
      }
    }

    /** Task contract, authority and acceptance come first; one that does not fit is critical. */
    method AddEnvelope(sizes: seq<nat>)
      requires Valid()
      modifies this`bytesUsed, this`pieces, this`kinds, this`critical
      ensures Valid() && (old(critical) ==> critical) && old(pieces) <= pieces
      ensures !critical ==> Holds(pieces, sizes)
      ensures old(bytesUsed) + NeedEnvelope(sizes) <= budget ==>
                critical == old(critical) && bytesUsed <= old(bytesUsed) + NeedEnvelope(sizes)
    {
      for k := 0 to |sizes|
        invariant Valid() && (old(critical) ==> critical) && old(pieces) <= pieces
        invariant !critical ==> Holds(pieces, sizes[..k])
        invariant old(bytesUsed) + NeedEnvelope(sizes) <= budget ==>
                    critical == old(critical) && bytesUsed <= old(bytesUsed) + NeedEnvelope(sizes[..k])
      {
        EnvelopeStep(sizes, k);
        var ok := Admit(Piece(sizes[k], false));
        if !ok {
          MissCritical();
          break;
        }
      }
      EnvelopeGrows(sizes, |sizes|);
      assert sizes[..|sizes|] == sizes;
    }

    method AddReference(x: Sources, path: string)
      requires Valid()
      modifies this`bytesUsed, this`pieces, this`kinds, this`critical
      ensures Valid() && (old(critical) ==> critical) && old(pieces) <= pieces
      ensures !critical ==> Piece(x.editableSize(path), false) in pieces
      ensures old(bytesUsed) + x.editableSize(path) + Warned(x, path) <= budget ==>
                critical == old(critical) && bytesUsed <= old(bytesUsed) + x.editableSize(path) + Warned(x, path)
    {
      var ok := Admit(Piece(x.editableSize(path), false));
      if !ok {
        MissCritical();
      } else if x.warningSize(path).Some? {
        var warned := Admit(Piece(x.warningSize(path).value, false));
      }
    }

    /** Each editable path is referenced; one that does not fit is critical. */
    method AddEditable(x: Sources, allowed: seq<string>)
      requires Valid()
      modifies this`bytesUsed, this`pieces, this`kinds, this`critical
      ensures Valid() && (old(critical) ==> critical) && old(pieces) <= pieces
      ensures !critical ==> forall k :: 0 <= k < |allowed| ==> Piece(x.editableSize(allowed[k]), false) in pieces
      ensures old(bytesUsed) + NeedEditable(x, allowed) <= budget ==>
                critical == old(critical) && bytesUsed <= old(bytesUsed) + NeedEditable(x, allowed)
    {
      for k := 0 to |allowed|
        invariant Valid() && (old(critical) ==> critical) && old(pieces) <= pieces
        invariant !critical ==> forall j :: 0 <= j < k ==> Piece(x.editableSize(allowed[j]), false) in pieces
        invariant old(bytesUsed) + NeedEditable(x, allowed) <= budget ==>
                    critical == old(critical) && bytesUsed <= old(bytesUsed) + NeedEditable(x, allowed[..k])
      {
        EditableStep(x, allowed, k);
        AddReference(x, allowed[k]);
      }
      assert allowed[..|allowed|] == allowed;
    }

    /** Pieces in order, up to the first that does not fit. */
    method AddWhileFits(list: seq<Piece>) returns (k: nat)
      requires Valid()
      modifies this`bytesUsed, this`pieces, this`kinds
      ensures Valid() && k <= |list| && pieces == old(pieces) + list[..k]
      ensures k < |list| ==> bytesUsed + list[k].size > budget
    {
      k := 0;
      while k < |list|
        invariant k <= |list| && Valid() && pieces == old(pieces) + list[..k]
      {
        var ok := Admit(list[k]);
        if !ok {
          return;
        }
        SliceStep(list, k);
        if list[k].broken {
          Note(ParseFailure);
        }
        k := k + 1;
      }
    }

    /** Optional pieces: whatever fits, with every omission noted; some lists stop at the first one. */
    method AddOptional(list: seq<Piece>, stopAtFirst: bool)
      requires Valid()
      modifies this`bytesUsed, this`pieces, this`kinds
      ensures Valid() && old(pieces) <= pieces
      ensures pieces == old(pieces) + list || (BudgetExhausted in kinds && old(bytesUsed) + Sizes(list) > budget)
    {
      var k := AddWhileFits(list);
      SizesAppend(old(pieces), list[..k]);
      if k < |list| {
        SizesStep(list, k);
        AddRest(list[k..], stopAtFirst);
      }
    }

    /** From the first piece that does not fit. */
    method AddRest(list: seq<Piece>, stopAtFirst: bool)
      requires Valid() && list != [] && bytesUsed + list[0].size > budget
      modifies this`bytesUsed, this`pieces, this`kinds
      ensures Valid() && old(pieces) <= pieces && BudgetExhausted in kinds
    {
      Note(BudgetExhausted);
      if stopAtFirst {
        return;
      }
      for k := 1 to |list|
        invariant Valid() && old(pieces) <= pieces && BudgetExhausted in kinds
      {
        var ok := Admit(list[k]);
        if !ok {
          Note(BudgetExhausted);
        } else if list[k].broken {
          Note(ParseFailure);
        }
      }
    }

    /** Required excerpts in plan order. Unless the package turned critical, the first ones, as many
        as are allowed, are all there and available. */
    method AddRequired(x: Sources, m: Model, s: Scope, paths: seq<string>)
      requires Valid() && excerpts == [] && (forall p :: x.excerpt(p).path == p)
      requires Showable(m, s, paths)
      modifies this
      ensures Valid() && (old(critical) ==> critical) && old(pieces) <= pieces && Discreet(m, s, excerpts)
      ensures !critical ==> Shown(excerpts, paths, maxExcerpts)
      ensures Extractable(x, paths) && old(bytesUsed) + NeedShown(x, paths) <= budget ==> critical == old(critical)
    {
      for k := 0 to |paths|
        invariant Valid() && (old(critical) ==> critical) && old(pieces) <= pieces && Discreet(m, s, excerpts)
        invariant !critical ==> ShownFirst(excerpts, paths, k)
        invariant Extractable(x, paths) && old(bytesUsed) + NeedShown(x, paths) <= budget ==>
                    critical == old(critical) && bytesUsed <= old(bytesUsed) + NeedShown(x, paths[..k])
      {
        if |excerpts| >= maxExcerpts {
          break;
        }
        NeedStep(x, paths, k);
        ghost var before := excerpts;
        AddExcerpt(x, paths[k], Required, s.forbidden, m.secret(paths[k]));
        if !critical {
          ShownPush(before, paths, k, x.excerpt(paths[k]));
        }
      }
    }

    /** Supporting excerpts fill what room is left and disturb nothing already there. */
    method AddSupporting(x: Sources, m: Model, s: Scope, items: seq<Item>)
      requires Valid() && Discreet(m, s, excerpts) && (forall p :: x.excerpt(p).path == p)
      modifies this
      ensures Valid() && critical == old(critical) && old(pieces) <= pieces && old(excerpts) <= excerpts
      ensures Discreet(m, s, excerpts)
    {
      for k := 0 to |items|
        invariant Valid() && critical == old(critical) && old(pieces) <= pieces && old(excerpts) <= excerpts
        invariant Discreet(m, s, excerpts)
      {
        if items[k].path.Some? && items[k].tag in {Supporting, Possible} {
          if |excerpts| >= maxExcerpts {
            Note(BudgetExhausted);
            break;
          }
          var path := items[k].path.value;
          if forall i :: 0 <= i < |excerpts| ==> excerpts[i].path != path {
            AddExcerpt(x, path, items[k].tag, s.forbidden, m.secret(path));
          }
        }
      }
    }

    /** Everything critical, first: envelope, editable paths and required excerpts. */
    method AddCritical(x: Sources, m: Model, s: Scope, paths: seq<string>)
      requires Valid() && excerpts == [] && bytesUsed == 0 && !critical && (forall p :: x.excerpt(p).path == p)
      requires Showable(m, s, paths)
      modifies this
      ensures Valid() && (!critical ==> CriticalHeld(x, s.allowed, paths, maxExcerpts, excerpts, pieces))
      ensures Discreet(m, s, excerpts)
      ensures Ample(x, s.allowed, paths, budget) ==> !critical
    {
      AddEnvelope(x.envelope);
      ghost var envelope := pieces;
      AddEditable(x, s.allowed);
      assert Holds(envelope, x.envelope) ==> Holds(pieces, x.envelope);
      ghost var editable := pieces;
      AddRequired(x, m, s, paths);
      assert Holds(editable, x.envelope) ==> Holds(pieces, x.envelope);
    }

    /** Everything optional, in priority order. */
    method AddOthers(x: Sources, m: Model, s: Scope, items: seq<Item>)
      requires Valid() && Discreet(m, s, excerpts) && (forall p :: x.excerpt(p).path == p)
      modifies this
      ensures Valid() && critical == old(critical) && old(pieces) <= pieces && old(excerpts) <= excerpts
      ensures Discreet(m, s, excerpts)
    {
      AddOptional(x.interfaces, false);
      AddOptional(x.dependencies, false);
      AddOptional(x.tests, true);
      AddOptional(x.architecture, true);
      AddSupporting(x, m, s, items);
    }

    method Judge(noSeeds: bool) returns (c: Completeness)
      requires Valid()
      ensures c == Incomplete <==> critical
      ensures c != Conflicting
      ensures c == Restricted <==> !critical && restricted && kinds != []
      ensures c == SufficientWithUncertainty <==> !critical && !restricted && kinds != []
      ensures c == UnknownCompleteness <==> !critical && kinds == [] && excerpts == [] && noSeeds
      ensures c == Sufficient <==> !critical && kinds == [] && !(excerpts == [] && noSeeds)
    {
      if critical {
        return Incomplete;
      }
      if restricted && kinds != [] {
        return Restricted;
      }
      if (AmbiguousOwnership in kinds || ModelUncertainty in kinds) && CriticalMissing in kinds {
        return Conflicting;
      }
      if kinds != [] {
        return SufficientWithUncertainty;
      }
      c := if excerpts == [] && noSeeds then UnknownCompleteness else Sufficient;
    }
  }

  /** No excerpt is of a secret or forbidden path. */
  ghost predicate Discreet(m: Model, s: Scope, excerpts: seq<Excerpt>) {
    forall i :: 0 <= i < |excerpts| ==> excerpts[i].path !in s.forbidden && !m.secret(excerpts[i].path)
  }

  /** The first required paths, as many as excerpts are allowed, each have an available excerpt. */
  predicate Shown(excerpts: seq<Excerpt>, paths: seq<string>, maxExcerpts: int) {
    forall i :: 0 <= i < |paths| && i < maxExcerpts ==> ShownAt(excerpts, paths[i], i)
  }

  predicate ShownAt(excerpts: seq<Excerpt>, path: string, i: nat) {
    i < |excerpts| && excerpts[i].path == path && excerpts[i].available
  }

  /** The excerpts are those of the first `k` required paths. */
  ghost predicate ShownFirst(excerpts: seq<Excerpt>, paths: seq<string>, k: nat) {
    |excerpts| == k <= |paths| && forall i :: 0 <= i < k ==> ShownAt(excerpts, paths[i], i)
  }

  lemma ShownPush(excerpts: seq<Excerpt>, paths: seq<string>, k: nat, e: Excerpt)
    requires ShownFirst(excerpts, paths, k) && k < |paths| && e.path == paths[k] && e.available
    ensures ShownFirst(excerpts + [e], paths, k + 1)
  {
    forall i | 0 <= i < k + 1
      ensures ShownAt(excerpts + [e], paths[i], i)
    {
      assert i < k ==> ShownAt(excerpts, paths[i], i);
    }
  }

  /** What a package that lost nothing critical holds. */
  ghost predicate CriticalHeld(x: Sources, allowed: seq<string>, paths: seq<string>, maxExcerpts: int,
                               excerpts: seq<Excerpt>, pieces: seq<Piece>)
  {
    && Shown(excerpts, paths, maxExcerpts) && Holds(pieces, x.envelope)
    && forall k :: 0 <= k < |allowed| ==> Piece(x.editableSize(allowed[k]), false) in pieces
  }

  lemma HeldStays(x: Sources, allowed: seq<string>, paths: seq<string>, maxExcerpts: int,
                  excerpts: seq<Excerpt>, pieces: seq<Piece>, excerpts': seq<Excerpt>, pieces': seq<Piece>)
    requires CriticalHeld(x, allowed, paths, maxExcerpts, excerpts, pieces)
    requires excerpts <= excerpts' && pieces <= pieces'
    ensures CriticalHeld(x, allowed, paths, maxExcerpts, excerpts', pieces')
  {
    forall i | 0 <= i < |paths| && i < maxExcerpts
      ensures ShownAt(excerpts', paths[i], i)
    {
      assert ShownAt(excerpts, paths[i], i);
    }
  }

  /** Assembles a package in priority order. */
  method AssembleContextPackage(m: Model, s: Scope, x: Sources, budget: nat, maxExcerpts: int,
                                items: seq<Item>, kinds: seq<Kind>)
    returns (p: Package, c: Completeness)
    requires (forall q :: x.excerpt(q).path == q) && CriticalMissing !in kinds
    requires Showable(m, s, RequiredPaths(items))
    ensures fresh(p) && p.Valid() && p.budget == budget && p.maxExcerpts == maxExcerpts
    ensures c != Conflicting && (c == Incomplete <==> CriticalMissing in p.kinds)
    ensures Discreet(m, s, p.excerpts)
    ensures c != Incomplete ==> CriticalHeld(x, s.allowed, RequiredPaths(items), maxExcerpts, p.excerpts, p.pieces)
    ensures Ample(x, s.allowed, RequiredPaths(items), budget) ==> c != Incomplete
  {
    p := new Package(budget, maxExcerpts, kinds);
    p.AddCritical(x, m, s, RequiredPaths(items));
    ghost var excerpts, pieces := p.excerpts, p.pieces;
    p.AddOthers(x, m, s, items);
    if !p.critical {
      HeldStays(x, s.allowed, RequiredPaths(items), maxExcerpts, excerpts, pieces, p.excerpts, p.pieces);
    }
    c := p.Judge(s.seeds == []);
  }

  ghost predicate HasExcerpt(excerpts: seq<Excerpt>, path: string) {
    exists i :: 0 <= i < |excerpts| && excerpts[i].path == path && excerpts[i].available
  }

  /** Every required path is shown. */
  ghost predicate AllShown(excerpts: seq<Excerpt>, paths: seq<string>) {
    forall path :: path in paths ==> HasExcerpt(excerpts, path)
  }

  /** Planning and assembling together. A package that is not incomplete shows every required path if and only
      if there are no more of them than excerpts allowed; with no more seed and allowed paths than excerpts
      that is always so. With ample room a package is never incomplete, however many paths it leaves out. */
  method PackageContext(m: Model, s: Scope, x: Sources, budget: nat, maxExcerpts: nat, seedComponents: seq<string>,
                        neighbourhood: seq<(string, Tag)>, truncated: bool, uncertainImpact: nat)
    returns (p: Package, c: Completeness, items: seq<Item>)
    requires ScopeOk(s) && forall q :: x.excerpt(q).path == q
    ensures p.Valid() && p.bytesUsed <= p.budget == budget && c != Conflicting && Discreet(m, s, p.excerpts)
    ensures c != Incomplete ==> (AllShown(p.excerpts, RequiredPaths(items)) <==> |RequiredPaths(items)| <= maxExcerpts)
    ensures |RequiredPaths(items)| <= Max(|s.seeds| + |s.allowed|, maxExcerpts)
    ensures SeedsRequired(m, s.seeds, items) && AllowedRequired(m, s, items) && Distinct(RequiredPaths(items))
    ensures Reasoned(m, s, neighbourhood, items)
    ensures Ample(x, s.allowed, RequiredPaths(items), budget) ==> c != Incomplete
  {
    var kinds;
    items, kinds := PlanContextSelection(m, s, maxExcerpts, seedComponents, neighbourhood, truncated, uncertainImpact);
    p, c := AssembleContextPackage(m, s, x, budget, maxExcerpts, items, kinds);
    if c != Incomplete {
      ShownExactly(p.excerpts, RequiredPaths(items), maxExcerpts);
    }
  }

  /** Excerpts for the first required paths cover them all exactly when none is left over. */
  lemma ShownExactly(excerpts: seq<Excerpt>, paths: seq<string>, maxExcerpts: nat)
    requires Distinct(paths) && Shown(excerpts, paths, maxExcerpts) && |excerpts| <= maxExcerpts
    ensures AllShown(excerpts, paths) <==> |paths| <= maxExcerpts
  {
    if |paths| <= maxExcerpts {
      forall path | path in paths
        ensures HasExcerpt(excerpts, path)
      {
        var i :| 0 <= i < |paths| && paths[i] == path;
        assert ShownAt(excerpts, paths[i], i);
      }
    }
    if AllShown(excerpts, paths) {
      var shown := set i | 0 <= i < |excerpts| :: excerpts[i].path;
      forall i | 0 <= i < |paths|
        ensures paths[i] in shown
      {
        assert HasExcerpt(excerpts, paths[i]);
      }
      DistinctWithin(paths, shown);
      ShownCount(excerpts);
    }
  }

  lemma {:induction false} ShownCount(excerpts: seq<Excerpt>)
    ensures |set i | 0 <= i < |excerpts| :: excerpts[i].path| <= |excerpts|
  {
    if excerpts != [] {
      var n := |excerpts| - 1;
      var front := excerpts[..n];
      ShownCount(front);
      assert (set i | 0 <= i < |excerpts| :: excerpts[i].path) ==
             (set i | 0 <= i < |front| :: front[i].path) + {excerpts[n].path};
    }
  }

  /** Every excerpt can be extracted, takes at most `size` bytes and draws no warning. */
  ghost predicate EachWithin(x: Sources, size: nat) {
    forall q :: WithinAt(x, size, q)
  }

  ghost predicate WithinAt(x: Sources, size: nat, q: string) {
    && x.excerpt(q).path == q && x.excerpt(q).available && x.excerpt(q).size <= size
    && x.warningSize(q).None?
  }

  lemma {:induction false} NeedWithin(x: Sources, size: nat, paths: seq<string>)
    requires EachWithin(x, size)
    ensures NeedShown(x, paths) <= size * |paths| && Extractable(x, paths)
  {
    if paths != [] {
      var n := |paths| - 1;
      assert WithinAt(x, size, paths[n]);
      NeedWithin(x, size, paths[..n]);
      assert size * (n + 1) == size * n + size;
      assert forall i :: 0 <= i < n ==> paths[..n][i] == paths[i];
    }
  }

  lemma RequiredCoverSeeds(m: Model, seeds: seq<string>, items: seq<Item>)
    requires SeedsRequired(m, seeds, items) && Distinct(seeds) && forall i :: 0 <= i < |seeds| ==>
               OwnedSeed(m, seeds[i])
    ensures |seeds| <= |RequiredPaths(items)|
  {
    var paths := RequiredPaths(items);
    var members := set path | path in paths;
    DistinctWithin(seeds, members);
    MembersCount(paths);
  }

  lemma {:induction false} MembersCount(paths: seq<string>)
    ensures |set path | path in paths| <= |paths|
  {
    if paths != [] {
      var front, last := paths[..|paths| - 1], paths[|paths| - 1];
      MembersCount(front);
      assert paths == front + [last];
      assert (set path | path in paths) == (set path | path in front) + {last};
    }
  }

  /** More owned seeds than excerpts and bytes enough for all: whatever the neighbourhood and the impact, the
      package is not marked incomplete, yet some required path has no excerpt. */
  method DropSurplus(m: Model, s: Scope, x: Sources, budget: nat, maxExcerpts: nat, seedComponents: seq<string>,
                     neighbourhood: seq<(string, Tag)>, truncated: bool, uncertainImpact: nat, size: nat)
    returns (p: Package, c: Completeness, items: seq<Item>, ghost path: string)
    requires ScopeOk(s) && EachWithin(x, size) && maxExcerpts < |s.seeds|
    requires forall i :: 0 <= i < |s.seeds| ==> OwnedSeed(m, s.seeds[i])
    requires NeedEnvelope(x.envelope) + NeedEditable(x, s.allowed) + size * (|s.seeds| + |s.allowed|) <= budget
    ensures c != Incomplete && path in RequiredPaths(items) && !HasExcerpt(p.excerpts, path)
    ensures p.Valid() && p.bytesUsed <= p.budget == budget
  {
    forall q
      ensures x.excerpt(q).path == q
    {
      assert WithinAt(x, size, q);
    }
    p, c, items := PackageContext(m, s, x, budget, maxExcerpts, seedComponents, neighbourhood, truncated,
                                  uncertainImpact);
    NeedWithin(x, size, RequiredPaths(items));
    Scale(size, |RequiredPaths(items)|, |s.seeds| + |s.allowed|);
    RequiredCoverSeeds(m, s.seeds, items);
    path :| path in RequiredPaths(items) && !HasExcerpt(p.excerpts, path);
  }

  lemma Scale(size: nat, a: nat, b: nat)
    requires a <= b
    ensures size * a <= size * b
  {
  }

  /** The same on one concrete scope: a component `c` of two files, both seeds, planned with room for one
      component and one excerpt, in four kibibytes. */
  method DropUnmarked() returns (p: Package, c: Completeness, items: seq<Item>, ghost path: string)
    ensures c != Incomplete && path in RequiredPaths(items) && !HasExcerpt(p.excerpts, path)
  {
    var m := Model({"a", "b"}, q => Component("c"), q => false, q => Code, q => if q == "c" then ["a", "b"] else []);
    var s := Scope(["a", "b"], [], {}, []);
    var x := Sources(q => Excerpt(q, true, false, 900), q => 80, q => None, [400, 800, 100], [], [], [], []);
    assert s.seeds[0] == "a" && s.seeds[1] == "b" && "a"[0] != "b"[0];
    assert NeedEnvelope([]) == 0 && [400][..0] == [] && [400, 800][..1] == [400] && [400, 800, 100][..2] == [400, 800];
    assert NeedEnvelope([400, 800]) == NeedEnvelope([400]) + 800;
    p, c, items, path := DropSurplus(m, s, x, 4096, 1, ["c"], [("c", Required)], true, 0, 900);
  }
}
