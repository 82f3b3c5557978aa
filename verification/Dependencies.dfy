/** Slice dependency analysis: the graph check and the eligibility derived from
    receipts (backend/continuous_builder/dependency_analysis.py). */
module Dependencies {
  import opened PyText
  import opened DepthFirst

  datatype Slice = Slice(id: Node, version: string, hard: seq<Node>, soft: seq<Node>)

  datatype Receipt = Receipt(id: string, slice: Node, version: string, passed: bool, authoritative: bool)

  datatype Candidate = Candidate(slice: Node, version: string, blueprint: string)

  datatype Reason =
    | MissingReceipt(slice: Node) | WrongVersion(slice: Node)
    | NotAuthoritative(slice: Node) | DependencyFailed(slice: Node)

  datatype SliceResult = SliceResult(
    slice: Node, eligible: bool, reasons: seq<Reason>, receipts: seq<string>, softSatisfied: seq<Node>)

  datatype AnalysisError =
    | MissingDependencies | GraphCycle | CandidateMismatch | SourceMismatch | DuplicateReceipt

  type SliceMap = map<Node, Slice>

  /** The later of two slices with one identifier wins, as in a dictionary display. */
  function ById(slices: seq<Slice>): (m: SliceMap)
    ensures m.Keys == set i | 0 <= i < |slices| :: slices[i].id
    ensures forall k :: k in m ==> m[k].id == k && m[k] in slices
  {
    if slices == [] then map[]
    else
      var last := slices[|slices| - 1];
      assert slices == slices[..|slices| - 1] + [last];
      ById(slices[..|slices| - 1])[last.id := last]
  }

  /** Hard and soft edges together. */
  function UnionGraph(m: SliceMap): Graph {
    map k | k in m :: m[k].hard + m[k].soft
  }

  ghost predicate DependenciesPresent(slices: seq<Slice>) {
    forall i, d :: 0 <= i < |slices| && (d in slices[i].hard || d in slices[i].soft) ==> d in ById(slices)
  }

  /** Returns the identifier map exactly when no dependency is missing and the union graph is acyclic. */
  method CheckGraph(slices: seq<Slice>, order: seq<Node>) returns (r: Result<SliceMap, AnalysisError>)
    requires forall n :: n in order <==> n in ById(slices)
    ensures r.Ok? <==> DependenciesPresent(slices) && !HasCycle(UnionGraph(ById(slices)))
    ensures r.Ok? ==> r.value == ById(slices)
    ensures r.Err? ==> r.error == if DependenciesPresent(slices) then GraphCycle else MissingDependencies
  {
    var byId := ById(slices);
    for i := 0 to |slices|
      invariant forall j, d :: 0 <= j < i && (d in slices[j].hard || d in slices[j].soft) ==> d in byId
    {
      var dependencies := slices[i].hard + slices[i].soft;
      var missing := (set d | d in dependencies) - byId.Keys;
      if missing != {} {
        var d :| d in missing;
        assert d in slices[i].hard || d in slices[i].soft;
        return Err(MissingDependencies);
      }
      assert forall d :: d in dependencies && d !in byId ==> d in missing;
      assert forall d :: d in slices[i].hard || d in slices[i].soft ==> d in dependencies;
    }
    var g := UnionGraph(byId);
    var ok, _ := CheckAcyclic(g, order);
    r := if ok then Ok(byId) else Err(GraphCycle);
  }

  // ----- eligibility -----------------------------------------------------------

  type Receipts = map<Node, Receipt>

  /** The verdict on one hard dependency: the receipt that satisfies it, or why none does. */
  function HardVerdict(m: SliceMap, receipts: Receipts, d: Node): Result<string, Reason>
    requires d in m
  {
    if d !in receipts then Err(MissingReceipt(d))
    else if receipts[d].version != m[d].version then Err(WrongVersion(d))
    else if !receipts[d].authoritative then Err(NotAuthoritative(d))
    else if !receipts[d].passed then Err(DependencyFailed(d))
    else Ok(receipts[d].id)
  }

  /** A dependency is discharged by a passed, authoritative receipt for its current version. */
  predicate Satisfies(m: SliceMap, receipts: Receipts, d: Node) {
    && d in m && d in receipts && receipts[d].passed && receipts[d].authoritative && receipts[d].version == m[d].version
  }

  function Reasons(m: SliceMap, receipts: Receipts, ds: seq<Node>): (r: seq<Reason>)
    requires forall d :: d in ds ==> d in m
    ensures r == [] <==> forall d :: d in ds ==> Satisfies(m, receipts, d)
  {
    if ds == [] then []
    else
      var n := |ds| - 1;
      assert ds == ds[..n] + [ds[n]];
      assert (forall d :: d in ds ==> Satisfies(m, receipts, d)) <==>
             (forall d :: d in ds[..n] ==> Satisfies(m, receipts, d)) && Satisfies(m, receipts, ds[n]);
      Reasons(m, receipts, ds[..n]) +
      (match HardVerdict(m, receipts, ds[n]) case Err(e) => [e] case Ok(_) => [])
  }

  function Bound(m: SliceMap, receipts: Receipts, ds: seq<Node>): (r: seq<string>)
    requires forall d :: d in ds ==> d in m
    ensures |r| + |Reasons(m, receipts, ds)| == |ds|
  {
    if ds == [] then []
    else
      var n := |ds| - 1;
      Bound(m, receipts, ds[..n]) + (match HardVerdict(m, receipts, ds[n]) case Err(_) => [] case Ok(id) => [id])
  }

  function Softs(m: SliceMap, receipts: Receipts, ds: seq<Node>): (r: seq<Node>)
    ensures forall d :: d in r <==> d in ds && Satisfies(m, receipts, d)
  {
    if ds == [] then []
    else
      var n := |ds| - 1;
      assert ds == ds[..n] + [ds[n]];
      Softs(m, receipts, ds[..n]) + (if Satisfies(m, receipts, ds[n]) then [ds[n]] else [])
  }

  function ResultFor(m: SliceMap, receipts: Receipts, s: Slice): SliceResult
    requires forall d :: d in s.hard ==> d in m
  {
    SliceResult(s.id, Reasons(m, receipts, s.hard) == [], Reasons(m, receipts, s.hard),
                Bound(m, receipts, s.hard), Softs(m, receipts, s.soft))
  }

  ghost predicate CandidatesMatch(m: SliceMap, candidates: seq<Candidate>) {
    && (forall i, j :: 0 <= i < j < |candidates| ==> candidates[i].slice != candidates[j].slice)
    && (set i | 0 <= i < |candidates| :: candidates[i].slice) == m.Keys
  }

  ghost predicate SourcesMatch(m: SliceMap, candidates: seq<Candidate>, blueprint: string) {
    forall i :: 0 <= i < |candidates| ==>
      && candidates[i].slice in m
      && candidates[i].blueprint == blueprint && candidates[i].version == m[candidates[i].slice].version
  }

  ghost predicate OneReceiptEach(receipts: seq<Receipt>) {
    forall i, j :: 0 <= i < j < |receipts| ==> receipts[i].slice != receipts[j].slice
  }

  /** The receipts indexed by the slice they vouch for. */
  ghost predicate Indexes(m: Receipts, receipts: seq<Receipt>) {
    && (forall i :: 0 <= i < |receipts| ==> receipts[i].slice in m && m[receipts[i].slice] == receipts[i])
    && (forall k :: k in m ==> m[k] in receipts && m[k].slice == k)
  }

  method IndexReceipts(receipts: seq<Receipt>) returns (r: Result<Receipts, AnalysisError>)
    ensures r.Ok? <==> OneReceiptEach(receipts)
    ensures r.Ok? ==> Indexes(r.value, receipts)
    ensures r.Err? ==> r.error == DuplicateReceipt
  {
    var m: Receipts := map[];
    for i := 0 to |receipts|
      invariant forall a, b :: 0 <= a < b < i ==> receipts[a].slice != receipts[b].slice
      invariant forall a :: 0 <= a < i ==> receipts[a].slice in m && m[receipts[a].slice] == receipts[a]
      invariant forall k :: k in m ==> m[k] in receipts[..i] && m[k].slice == k
    {
      if receipts[i].slice in m {
        assert m[receipts[i].slice] in receipts[..i];
        return Err(DuplicateReceipt);
      }
      m := m[receipts[i].slice := receipts[i]];
      assert receipts[..i + 1] == receipts[..i] + [receipts[i]];
    }
    assert receipts[..|receipts|] == receipts;
    r := Ok(m);
  }

  method JudgeOne(m: SliceMap, receipts: Receipts, d: Node) returns (v: Result<string, Reason>)
    requires d in m
    ensures v == HardVerdict(m, receipts, d)
  {
    if d !in receipts {
      return Err(MissingReceipt(d));
    }
    if receipts[d].version != m[d].version {
      return Err(WrongVersion(d));
    }
    if !receipts[d].authoritative {
      return Err(NotAuthoritative(d));
    }
    v := if receipts[d].passed then Ok(receipts[d].id) else Err(DependencyFailed(d));
  }

  method JudgeHard(m: SliceMap, receipts: Receipts, hard: seq<string>)
    returns (reasons: seq<Reason>, bound: seq<string>)
    requires forall d :: d in hard ==> d in m
    ensures reasons == Reasons(m, receipts, hard) && bound == Bound(m, receipts, hard)
  {
    reasons, bound := [], [];
    for i := 0 to |hard|
      invariant reasons == Reasons(m, receipts, hard[..i])
      invariant bound == Bound(m, receipts, hard[..i])
    {
      assert hard[..i + 1][..i] == hard[..i];
      assert hard[i] in hard;
      var v := JudgeOne(m, receipts, hard[i]);
      match v
      case Err(reason) => reasons := reasons + [reason];
      case Ok(id) => bound := bound + [id];
    }
    assert hard[..|hard|] == hard;
  }

  method EvaluateSlice(m: SliceMap, receipts: Receipts, s: Slice) returns (r: SliceResult)
    requires forall d :: d in s.hard ==> d in m
    ensures r == ResultFor(m, receipts, s)
    ensures r.eligible <==> forall d :: d in s.hard ==> Satisfies(m, receipts, d)
  {
    var reasons, bound := JudgeHard(m, receipts, s.hard);
    r := SliceResult(s.id, reasons == [], reasons, bound, Softs(m, receipts, s.soft));
  }

  /** One result per slice, in the given order. */
  ghost predicate ResultsFor(m: SliceMap, index: Receipts, order: seq<Node>, results: seq<SliceResult>) {
    && |results| == |order|
    && (forall i :: 0 <= i < |order| ==>
          && order[i] in m && (forall d :: d in m[order[i]].hard ==> d in m)
          && results[i] == ResultFor(m, index, m[order[i]]))
  }

  method EvaluateAll(m: SliceMap, index: Receipts, order: seq<Node>) returns (results: seq<SliceResult>)
    requires forall n :: n in order ==> n in m && forall d :: d in m[n].hard ==> d in m
    ensures ResultsFor(m, index, order, results)
  {
    results := [];
    for i := 0 to |order|
      invariant ResultsFor(m, index, order[..i], results)
    {
      assert order[i] in order;
      var result := EvaluateSlice(m, index, m[order[i]]);
      results := results + [result];
      assert order[..i + 1] == order[..i] + [order[i]];
    }
    assert order[..|order|] == order;
  }

  method MatchSources(m: SliceMap, candidates: seq<Candidate>, blueprint: string) returns (ok: bool)
    requires CandidatesMatch(m, candidates)
    ensures ok <==> SourcesMatch(m, candidates, blueprint)
  {
    ghost var names := set i | 0 <= i < |candidates| :: candidates[i].slice;
    for i := 0 to |candidates|
      invariant SourcesMatch(m, candidates[..i], blueprint)
    {
      assert candidates[i].slice in names;
      if candidates[i].blueprint != blueprint || candidates[i].version != m[candidates[i].slice].version {
        return false;
      }
      assert candidates[..i + 1] == candidates[..i] + [candidates[i]];
    }
    assert candidates[..|candidates|] == candidates;
    ok := true;
  }

  /** The whole derivation. `order` is the sorted list of slice identifiers. */
  method Derive(slices: seq<Slice>, order: seq<Node>, candidates: seq<Candidate>, blueprint: string,
                receipts: seq<Receipt>)
    returns (r: Result<seq<SliceResult>, AnalysisError>)
    requires forall n :: n in order <==> n in ById(slices)
    ensures r.Ok? <==>
              && DependenciesPresent(slices) && !HasCycle(UnionGraph(ById(slices)))
              && CandidatesMatch(ById(slices), candidates) && SourcesMatch(ById(slices), candidates, blueprint)
              && OneReceiptEach(receipts)
    ensures r.Ok? ==> exists index :: Indexes(index, receipts) && ResultsFor(ById(slices), index, order, r.value)
    ensures r.Err? ==>
              r.error ==
                if !DependenciesPresent(slices) then MissingDependencies
                else if HasCycle(UnionGraph(ById(slices))) then GraphCycle
                else if !CandidatesMatch(ById(slices), candidates) then CandidateMismatch
                else if !SourcesMatch(ById(slices), candidates, blueprint) then SourceMismatch
                else DuplicateReceipt
  {
    var checked := CheckGraph(slices, order);
    if checked.Err? {
      return Err(checked.error);
    }
    var m := checked.value;
    var names := set i | 0 <= i < |candidates| :: candidates[i].slice;
    var matching := MatchCandidates(m, candidates, names);
    if !matching {
      return Err(CandidateMismatch);
    }
    var bound := MatchSources(m, candidates, blueprint);
    if !bound {
      return Err(SourceMismatch);
    }
    var indexed := IndexReceipts(receipts);
    if indexed.Err? {
      return Err(indexed.error);
    }
    forall n | n in order ensures forall d :: d in m[n].hard ==> d in m {
      HardPresent(slices, n);
    }
    var results := EvaluateAll(m, indexed.value, order);
    r := Ok(results);
  }

  lemma HardPresent(slices: seq<Slice>, k: Node)
    requires DependenciesPresent(slices) && k in ById(slices)
    ensures forall d :: d in ById(slices)[k].hard ==> d in ById(slices)
  {
    var i :| 0 <= i < |slices| && slices[i] == ById(slices)[k];
  }

  method MatchCandidates(m: SliceMap, candidates: seq<Candidate>, names: set<Node>) returns (ok: bool)
    requires names == set i | 0 <= i < |candidates| :: candidates[i].slice
    ensures ok <==> CandidatesMatch(m, candidates)
  {
    for i := 0 to |candidates|
      invariant forall a, b :: 0 <= a < b < i ==> candidates[a].slice != candidates[b].slice
    {
      for j := 0 to i
        invariant forall a :: 0 <= a < j ==> candidates[a].slice != candidates[i].slice
      {
        if candidates[j].slice == candidates[i].slice {
          return false;
        }
      }
    }
    ok := names == m.Keys;
  }

  /** A slice is eligible exactly when every hard dependency is discharged, and every
      hard dependency is accounted for once: by its receipt or by a reason. */
  lemma EligibleMeansDischarged(m: SliceMap, receipts: Receipts, s: Slice)
    requires forall d :: d in s.hard ==> d in m
    ensures ResultFor(m, receipts, s).eligible <==> forall d :: d in s.hard ==> Satisfies(m, receipts, d)
    ensures |ResultFor(m, receipts, s).reasons| + |ResultFor(m, receipts, s).receipts| == |s.hard|
    ensures forall d :: d in ResultFor(m, receipts, s).softSatisfied <==> d in s.soft && Satisfies(m, receipts, d)
  {
    assert |Bound(m, receipts, s.hard)| + |Reasons(m, receipts, s.hard)| == |s.hard|;
  }

  /** Adding a receipt for a slice that had none never makes another slice ineligible. */
  lemma {:induction false} MoreReceiptsNeverBlock(m: SliceMap, receipts: Receipts, extra: Receipt, s: Slice)
    requires (forall d :: d in s.hard ==> d in m) && extra.slice !in receipts
    requires ResultFor(m, receipts, s).eligible
    ensures ResultFor(m, receipts[extra.slice := extra], s) == ResultFor(m, receipts, s)
              .(softSatisfied := Softs(m, receipts[extra.slice := extra], s.soft))
  {
    EligibleMeansDischarged(m, receipts, s);
    SameVerdicts(m, receipts, receipts[extra.slice := extra], s.hard);
  }

  lemma {:induction false} SameVerdicts(m: SliceMap, a: Receipts, b: Receipts, ds: seq<Node>)
    requires forall d :: d in ds ==> d in m && d in a && d in b && a[d] == b[d]
    ensures Reasons(m, a, ds) == Reasons(m, b, ds) && Bound(m, a, ds) == Bound(m, b, ds)
  {
    if ds != [] {
      SameVerdicts(m, a, b, ds[..|ds| - 1]);
    }
  }

  /** What a reason says about the dependency it names. */
  ghost predicate Holds(m: SliceMap, receipts: Receipts, e: Reason) {
    && e.slice in m
    && match e
       case MissingReceipt(d) => d !in receipts
       case WrongVersion(d) => d in receipts && receipts[d].version != m[d].version
       case NotAuthoritative(d) =>
         d in receipts && receipts[d].version == m[d].version && !receipts[d].authoritative
       case DependencyFailed(d) =>
         d in receipts && receipts[d].version == m[d].version && receipts[d].authoritative && !receipts[d].passed
  }

  /** Every reason is true of a hard dependency, every undischarged one has its reason, and the bound receipts are
      exactly those that discharge one. */
  lemma {:induction false} VerdictsAreRight(m: SliceMap, receipts: Receipts, ds: seq<Node>)
    requires forall d :: d in ds ==> d in m
    ensures forall e :: e in Reasons(m, receipts, ds) ==> e.slice in ds && Holds(m, receipts, e)
    ensures forall d :: d in ds && !Satisfies(m, receipts, d) ==> Blamed(m, receipts, ds, d)
    ensures forall id :: id in Bound(m, receipts, ds) <==> Discharging(m, receipts, ds, id)
  {
    if ds != [] {
      var front, last := ds[..|ds| - 1], ds[|ds| - 1];
      assert ds == front + [last];
      VerdictsAreRight(m, receipts, front);
      forall d | d in ds && !Satisfies(m, receipts, d)
        ensures Blamed(m, receipts, ds, d)
      {
        if d in front {
          var e :| e in Reasons(m, receipts, front) && e.slice == d;
          assert e in Reasons(m, receipts, ds);
        } else {
          assert HardVerdict(m, receipts, last).error in Reasons(m, receipts, ds);
        }
      }
      forall id
        ensures id in Bound(m, receipts, ds) <==> Discharging(m, receipts, ds, id)
      {
        BoundPush(m, receipts, front, last, id);
      }
    }
  }

  ghost predicate Blamed(m: SliceMap, receipts: Receipts, ds: seq<Node>, d: Node)
    requires forall d :: d in ds ==> d in m
  {
    exists e :: e in Reasons(m, receipts, ds) && e.slice == d
  }

  ghost predicate Discharging(m: SliceMap, receipts: Receipts, ds: seq<Node>, id: string) {
    exists d :: d in ds && Satisfies(m, receipts, d) && receipts[d].id == id
  }

  lemma BoundPush(m: SliceMap, receipts: Receipts, ds: seq<Node>, last: Node, id: string)
    requires forall d :: d in ds + [last] ==> d in m
    requires forall d :: d in ds ==> d in m
    requires id in Bound(m, receipts, ds) <==> Discharging(m, receipts, ds, id)
    ensures id in Bound(m, receipts, ds + [last]) <==> Discharging(m, receipts, ds + [last], id)
  {
    assert (ds + [last])[..|ds|] == ds;
    assert last in ds + [last];
    if Discharging(m, receipts, ds + [last], id) {
      var d :| d in ds + [last] && Satisfies(m, receipts, d) && receipts[d].id == id;
      assert d in ds || d == last;
    }
    if Discharging(m, receipts, ds, id) {
      var d :| d in ds && Satisfies(m, receipts, d) && receipts[d].id == id;
      assert d in ds + [last];
    }
  }
}
