/** The byte limit on a mission's printed summary: which records keep it, and exactly which plans always do
    (backend/composition_runtime.py). */
module MissionLimit {
  import opened PyText
  import opened Json
  import opened Validation
  import opened Tools
  import opened ToolBudget
  import opened Feasibility
  import opened Printing
  import opened Mission

  // ----- what the other parts of a record take ---------------------------------------------------

  /** Run identifiers, operation identifiers and exception class names carry no surrounding whitespace,
      so they print within their limits; floats print in at most 24 bytes. */
  ghost predicate Compact(w: World) {
    && FloatsAreShort(w.printedSize)
    && (forall c :: PrintsWithin(w.className(c), 200))
    && (forall i, t, a ::
          match w.execute(i, t, a)
          case Raised(error) => PrintsWithin(error, 200)
          case Returned(_, run) => PrintsWithin(run, 128))
    && (forall t, v, a ::
          match w.freeze(t, v, a)
          case Ok(id) => PrintsWithin(id, 128)
          case Err(error) => PrintsWithin(error, 200))
  }

  const MAX_STEPS: nat := 8

  ghost predicate BoundPrints(b: BoundStep) {
    PrintsWithin(b.id, 128) && PrintsWithin(b.tool.name, 128) && PrintsWithin(b.tool.version, 128)
  }

  /** The identities in a plan, which their constructors strip, and the number of its steps. */
  ghost predicate PlanPrints(plan: Plan) {
    && PrintsWithin(plan.mission, 128) && |plan.bound| <= MAX_STEPS
    && forall i :: 0 <= i < |plan.bound| ==> BoundPrints(plan.bound[i])
  }

  const MAX_STEP_PRINT: nat := 1600

  ghost predicate StepsFit(steps: seq<StepRun>) {
    forall i :: 0 <= i < |steps| ==> StepPrint(steps[i]) <= MAX_STEP_PRINT
  }

  ghost predicate CountFits(library: Value -> nat, v: Value) {
    ValuePrint(library, v) <= MAX_SCALAR
  }

  ghost predicate FactsFit(library: Value -> nat, f: Facts) {
    && PrintsWithin(f.selected, 100)
    && CountFits(library, f.open) && CountFits(library, f.listed) && CountFits(library, f.memories)
  }

  lemma {:induction false} CharsPrintBounded(s: string)
    ensures CharsPrint(s) <= 6 * |s|
  {
    if s != "" {
      CharsPrintBounded(s[..|s| - 1]);
    }
  }

  lemma StepRecordFits(b: BoundStep, r: StepRun)
    requires BoundPrints(b) && Mirrors(b, r) && PrintsWithin(r.run, 128)
    ensures StepPrint(r) <= MAX_STEP_PRINT
  {
    CharsPrintBounded(StepStatusText(r.status));
  }

  lemma {:induction false} StepsPrintFit(steps: seq<StepRun>)
    requires StepsFit(steps)
    ensures StepsPrint(steps) <= MAX_STEP_PRINT * |steps|
  {
    if steps != [] {
      StepsPrintFit(steps[..|steps| - 1]);
    }
  }

  lemma EmptyPrints()
    ensures forall limit: nat :: PrintsWithin("", limit)
  {
    assert CharsPrint("") == 0;
  }

  lemma PaddedFits(plan: Plan, steps: seq<StepRun>)
    requires PlanPrints(plan) && |steps| <= |plan.bound| && StepsFit(steps)
    ensures StepsFit(Padded(plan, steps))
  {
    EmptyPrints();
    var all := Padded(plan, steps);
    forall i | 0 <= i < |all|
      ensures StepPrint(all[i]) <= MAX_STEP_PRINT
    {
      if |steps| <= i {
        StepRecordFits(plan.bound[i], all[i]);
      }
    }
  }

  ghost predicate PendingFits(op: Option<PendingOperation>) {
    op.Some? ==>
      && PrintsWithin(op.value.id, 128) && op.value.status == "pending"
      && PrintsWithin(op.value.tool, 128) && PrintsWithin(op.value.version, 128)
  }

  lemma StatusPrint(status: RunStatus)
    ensures TextPrint(StatusText(status)) <= 98
  {
    CharsPrintBounded(StatusText(status));
  }

  lemma PendingPrintFits(op: Option<PendingOperation>)
    requires PendingFits(op)
    ensures PendingPrint(op) <= 900
  {
    CharsPrintBounded("pending");
  }

  lemma DigitPrint(n: int)
    requires 0 <= n < 10
    ensures |IntText(n)| == 1
  {
  }

  /** A record is within the limit as soon as its counts print in a bounded number of bytes. */
  lemma BoundedCountsPrint(w: World, m: MissionRun)
    requires PlanPrints(m.plan) && |m.steps| == |m.plan.bound| && StepsFit(m.steps)
    requires 0 <= m.executed < 10 && 0 <= m.processed < 10 && |m.signatures| <= 5
    requires PrintsWithin(m.failure, 200) && PendingFits(m.pending) && FactsFit(w.printedSize, m.facts)
    ensures Printed(w, m)
  {
    StepsPrintFit(m.steps);
    StatusPrint(m.status);
    PendingPrintFits(m.pending);
    DigitPrint(m.executed);
    DigitPrint(m.processed);
  }

  // ----- counts along a run ------------------------------------------------------------------------

  ghost predicate Fitting(w: World, p: Progress) {
    StepsFit(p.steps) && FactsFit(w.printedSize, p.facts)
  }

  lemma ScalarFits(library: Value -> nat, v: Value)
    requires FloatsAreShort(library) && Serializable(v) && TypeOf(v) in SCALARS
    ensures CountFits(library, v)
  {
  }

  /** An accepted read leaves facts that print within bounds. */
  lemma JudgedFits(w: World, k: Checks, step: ProposedStep, i: nat, data: Args, f: Facts, g: Facts)
    requires ChecksOf(w, k) && FloatsAreShort(w.printedSize) && FactsFit(w.printedSize, f)
    requires k.judged(step, i, data, f, g)
    ensures FactsFit(w.printedSize, g)
  {
    assert JudgedMeans(w, k, step, i, data, f, g);
    match i
    case 0 => SelectionBounded(w.fold, data["projects"], g.selected);
    case 1 =>
      assert Serializable(data["counts"]);
      ScalarFits(w.printedSize, g.open);
    case 2 => ScalarFits(w.printedSize, g.listed);
    case _ => ScalarFits(w.printedSize, g.memories);
  }

  /** Where a read reports its count. */
  function CountPath(i: nat): seq<string> {
    if i == 1 then ["counts", "open"] else ["count"]
  }

  predicate DeclaresAs(outputs: seq<Output>, path: seq<string>, types: set<string>) {
    exists j :: 0 <= j < |outputs| && outputs[j].path == path && outputs[j].valueType in types
  }

  /** The summary, list and search steps declare their counts with a type of bounded print. */
  predicate DeclaresCounts(plan: Plan) {
    forall i :: 1 <= i < 4 && i < |plan.steps| ==> DeclaresAs(plan.steps[i].outputs, CountPath(i), SCALARS)
  }

  lemma ExtractCount(data: Args)
    ensures Extract(Obj(data), ["count"]) == if "count" in data then Some(data["count"]) else None
  {
    var path := ["count"];
    assert path[0] == "count" && path[1..] == [];
  }

  lemma ExtractOpen(data: Args)
    requires "counts" in data && data["counts"].Obj? && "open" in data["counts"].fields
    ensures Extract(Obj(data), ["counts", "open"]) == Some(data["counts"].fields["open"])
  {
    var path := ["counts", "open"];
    assert path[0] == "counts" && path[1..] == ["open"];
    var rest := ["open"];
    assert rest[0] == "open" && rest[1..] == [];
    assert Extract(data["counts"], rest) == Some(data["counts"].fields["open"]);
  }

  /** The count that the `i`-th read takes over. */
  function CountIn(i: nat, data: Args, selected: string): Value
    requires CountRead(i, data, selected)
  {
    if i == 1 then data["counts"].fields["open"] else data["count"]
  }

  lemma CountAtPath(i: nat, data: Args, selected: string)
    requires i < 4 && CountRead(i, data, selected)
    ensures Extract(Obj(data), CountPath(i)) == Some(CountIn(i, data, selected))
  {
    if i == 1 {
      ExtractOpen(data);
    } else {
      ExtractCount(data);
    }
  }

  lemma CountSerializable(i: nat, data: Args, selected: string)
    requires CountRead(i, data, selected) && Serializable(Obj(data))
    ensures Serializable(CountIn(i, data, selected))
  {
    if i == 1 {
      assert Serializable(data["counts"]);
    }
  }

  /** Whatever a read returns, a declared count that is taken over prints within bounds. */
  lemma StoredFits(w: World, k: Checks, step: ProposedStep, i: nat, data: Args, f: Facts)
    requires ChecksOf(w, k) && FloatsAreShort(w.printedSize) && FactsFit(w.printedSize, f) && i < 4
    requires 1 <= i ==> DeclaresAs(step.outputs, CountPath(i), SCALARS)
    ensures FactsFit(w.printedSize, k.stored(step, i, data, f))
  {
    assert StoredMeans(w, k, step, i, data, f);
    if ResultAdmissible(w, step, data) && CountRead(i, data, f.selected) {
      var j :| 0 <= j < |step.outputs| && step.outputs[j].path == CountPath(i) && step.outputs[j].valueType in SCALARS;
      CountAtPath(i, data, f.selected);
      CountSerializable(i, data, f.selected);
      ScalarFits(w.printedSize, CountIn(i, data, f.selected));
    }
  }

  /** Early endings print within bounds if the counts they hold do. */
  lemma EarlyEndFits(w: World, plan: Plan, p: Progress, failure: string, failed: bool)
    requires PlanPrints(plan) && |p.steps| <= |plan.bound| && StepsFit(p.steps) && PrintsWithin(failure, 200)
    requires |p.signatures| <= 5 && PerformedCount(p.steps) <= 4
    ensures FactsFit(w.printedSize, p.facts) ==> Printed(w, EndEarly(plan, p, failure, failed).ending.record)
  {
    PaddedFits(plan, p.steps);
    if FactsFit(w.printedSize, p.facts) {
      BoundedCountsPrint(w, EndEarly(plan, p, failure, failed).ending.record);
    }
  }

  lemma PushFits(plan: Plan, steps: seq<StepRun>, r: StepRun)
    requires PlanPrints(plan) && |steps| < |plan.bound| && StepsFit(steps)
    requires Mirrors(plan.bound[|steps|], r) && PrintsWithin(r.run, 128)
    ensures StepsFit(steps + [r])
  {
    StepRecordFits(plan.bound[|steps|], r);
  }

  ghost predicate Admitted(w: World, k: Checks, plan: Plan) {
    Sane(w, k) && Compact(w) && PlanConstructed(k.fits, plan) && PlanPrints(plan)
  }

  lemma FreezeFits(w: World, k: Checks, plan: Plan, p: Progress, args: Args)
    requires Compact(w) && PlanPrints(plan) && Accounted(k, plan, p) && Fitting(w, p) && |p.steps| + 1 == |plan.bound|
    ensures Freeze(w, plan, p, args).Over? && Printed(w, Freeze(w, plan, p, args).ending.record)
  {
    EmptyPrints();
    var bound := plan.bound[|p.steps|];
    var sig := Signature(bound.tool.name, args);
    match w.freeze(bound.tool.name, bound.tool.version, args)
    case Err(error) =>
      var r := Record(bound, StepFailed, sig, "", None);
      PushFits(plan, p.steps, r);
      PerformedPush(p.steps, r);
      EarlyEndFits(w, plan, Progress(p.steps + [r], p.signatures + [sig], p.facts, p.trace), error, true);
    case Ok(id) =>
      PushFits(plan, p.steps, Record(bound, StepPending, sig, "", None));
      assert PrintsWithin(id, 128);
      BoundedCountsPrint(w, Freeze(w, plan, p, args).ending.record);
  }

  /** Whether the record of an ending keeps the limit: always unless a read failed, and then too if every count
      is declared. */
  ghost predicate EndingFits(w: World, plan: Plan, m: MissionRun) {
    && (FactsFit(w.printedSize, m.facts) ==> Printed(w, m))
    && (m.status != Failed || DeclaresCounts(plan) ==> Printed(w, m))
  }

  lemma PerformedPush(steps: seq<StepRun>, r: StepRun)
    ensures PerformedCount(steps + [r]) <= PerformedCount(steps) + 1
  {
    assert (steps + [r])[..|steps|] == steps;
  }

  lemma FailedCallFits(w: World, k: Checks, plan: Plan, p: Progress, r: StepRun, sig: Signature, facts: Facts,
                       data: Option<Args>, failure: string)
    requires PlanPrints(plan) && Accounted(k, plan, p) && StepsFit(p.steps) && |p.steps| < 4 && |p.steps| < |plan.bound|
    requires Mirrors(plan.bound[|p.steps|], r) && PrintsWithin(r.run, 128) && PrintsWithin(failure, 200)
    ensures var m := EndEarly(plan, AfterCall(p, r, sig, facts, data), failure, true).ending.record;
            m.facts == facts && (FactsFit(w.printedSize, facts) ==> Printed(w, m)) && m.status == Failed
  {
    PushFits(plan, p.steps, r);
    PerformedPush(p.steps, r);
    EarlyEndFits(w, plan, AfterCall(p, r, sig, facts, data), failure, true);
  }

  lemma ReadFits(w: World, k: Checks, plan: Plan, p: Progress, args: Args)
    requires ChecksOf(w, k) && Compact(w) && PlanPrints(plan) && Accounted(k, plan, p) && Fitting(w, p)
    requires |p.steps| < 4 && |p.steps| < |plan.bound| == |plan.steps|
    ensures match Read(w, k, plan, p, args)
            case Over(e) => EndingFits(w, plan, e.record)
            case On(q) => Fitting(w, q)
  {
    EmptyPrints();
    var i, bound := |p.steps|, plan.bound[|p.steps|];
    var sig := Signature(bound.tool.name, args);
    match w.execute(i, bound.tool.name, args)
    case Raised(error) =>
      assert PrintsWithin(error, 200);
      FailedCallFits(w, k, plan, p, Record(bound, StepFailed, sig, "", None), sig, p.facts, None, error);
    case Returned(data, run) =>
      assert PrintsWithin(run, 128);
      if Refused(k, plan, i, data, p.facts) {
        if DeclaresCounts(plan) {
          StoredFits(w, k, plan.steps[i], i, data, p.facts);
        }
        FailedCallFits(w, k, plan, p, Record(bound, StepFailed, sig, run, Some(data)), sig,
                       k.stored(plan.steps[i], i, data, p.facts), Some(data), w.className(ResultRejected));
      } else {
        var q := Read(w, k, plan, p, args).next;
        PushFits(plan, p.steps, Record(bound, StepSucceeded, sig, run, Some(data)));
        JudgedFits(w, k, plan.steps[i], i, data, p.facts, q.facts);
      }
  }

  lemma AdvanceFits(w: World, k: Checks, plan: Plan, p: Progress)
    requires Admitted(w, k, plan) && Underway(plan, p) && InStep(w, k, plan, p) && Fitting(w, p)
    ensures match Advance(w, k, plan, p)
            case Over(e) => EndingFits(w, plan, e.record)
            case On(q) => Fitting(w, q)
  {
    var i, results := |p.steps|, ResultsOf(plan, p.trace.data);
    PreparedMatches(w, k, plan, i, results, p.facts.selected);
    match Preparation(w, k, plan, i, results, p.facts.selected)
    case Err(cause) => EarlyEndFits(w, plan, p, w.className(cause), false);
    case Ok(args) =>
      if i == |plan.bound| - 1 {
        FreezeFits(w, k, plan, p, args);
      } else {
        ReadFits(w, k, plan, p, args);
      }
  }

  lemma {:induction false} PlayFits(w: World, k: Checks, plan: Plan, p: Progress)
    requires Admitted(w, k, plan) && Underway(plan, p) && InStep(w, k, plan, p) && Fitting(w, p)
    ensures EndingFits(w, plan, Play(w, k, plan, p).record)
    decreases |plan.bound| - |p.steps|
  {
    SaneIsTame(w, k);
    AdvanceKeeps(w, k, plan, p);
    AdvanceFits(w, k, plan, p);
    var move := Advance(w, k, plan, p);
    if move.On? {
      PlayFits(w, k, plan, move.next);
    }
  }

  lemma StartFits(w: World)
    ensures Fitting(w, START)
  {
    EmptyPrints();
    assert NatText(1) == [Digit(1)] && IntText(-1) == "-" + NatText(1);
  }

  /** Pending and blocked missions always yield a record the constructor accepts. So does a failed one unless the
      refused read left a count that does not print within bounds. */
  lemma UnfailedAccepted(w: World, k: Checks, plan: Plan)
    requires Admitted(w, k, plan)
    ensures var m := Run(w, k, plan).record;
            m.status != Failed || FactsFit(w.printedSize, m.facts) ==> Accepted(w, k.fits, w.names[4], m)
  {
    StartInStep(w, k, plan);
    StartFits(w);
    PlayFits(w, k, plan, START);
    RunIsVouched(w, k, plan);
  }

  /** A plan that declares its three counts with types of bounded print always yields an accepted record,
      whatever registry, tools and store do. */
  lemma DeclaredCountsSuffice(w: World, k: Checks, plan: Plan)
    requires Admitted(w, k, plan) && DeclaresCounts(plan)
    ensures Accepted(w, k.fits, w.names[4], Run(w, k, plan).record)
  {
    StartInStep(w, k, plan);
    StartFits(w);
    PlayFits(w, k, plan, START);
    RunIsVouched(w, k, plan);
  }

  // ----- a count that is not declared ---------------------------------------------------------------

  function Letters(n: nat): (s: string)
    ensures |s| == n
  {
    seq(n, i => 'x')
  }

  /** The read's data with another count. */
  function WithCount(i: nat, data: Args, v: Value): Args
    requires i == 1 ==> "counts" in data && data["counts"].Obj?
  {
    if i == 1 then data["counts" := Obj(data["counts"].fields["open" := v])] else data["count" := v]
  }

  /** Putting letters in place of a count makes the encoded result longer by those letters and two quotes at most. */
  ghost predicate EncodesPlainly(w: World) {
    forall i: nat, data: Args, selected: string, n: nat :: CountRead(i, data, selected) ==>
      w.encodedSize(WithCount(i, data, Str(Letters(n)))) <= w.encodedSize(data) + n + 2
  }

  const MAX_SMALL_RESULT := MAX_RESULT_BYTES - MAX_SUMMARY_BYTES - 2

  /** The data a faulty tool returns: everything as before, and a text as long as the limit for a count. */
  function Swollen(i: nat, data: Args): Args
    requires i == 1 ==> "counts" in data && data["counts"].Obj?
  {
    WithCount(i, data, Str(Letters(MAX_SUMMARY_BYTES)))
  }

  lemma SwollenCount(i: nat, data: Args, selected: string)
    requires 1 <= i < 4 && CountRead(i, data, selected)
    ensures var swollen := Swollen(i, data);
            CountRead(i, swollen, selected) && CountIn(i, swollen, selected) == Str(Letters(MAX_SUMMARY_BYTES))
  {
    var a, b, c, d := "project", "counts", "count", "tasks";
    assert |a| == 7 && |b| == 6 && |c| == 5 && |d| == 5 && d[0] != c[0] && |"memories"| == 8;
  }

  lemma SwollenSerializable(i: nat, data: Args, selected: string)
    requires CountRead(i, data, selected) && Serializable(Obj(data))
    ensures Serializable(Obj(Swollen(i, data)))
  {
    if i == 1 {
      assert Serializable(data["counts"]);
      assert Serializable(Swollen(i, data)["counts"]);
    }
  }

  /** Along every path but its own, replacing a number leaves a value of the same type. */
  lemma ReplacedElsewhere(fields: Args, key: string, v: Value, path: seq<string>)
    requires key in fields && fields[key].Int? && path != [key] && Extract(Obj(fields), path).Some?
    ensures var found := Extract(Obj(fields[key := v]), path);
            found.Some? && TypeOf(found.value) == TypeOf(Extract(Obj(fields), path).value)
  {
    if path != [] {
      assert path == [path[0]] + path[1..];
    }
  }

  lemma SwollenElsewhere(i: nat, data: Args, selected: string, path: seq<string>)
    requires 1 <= i < 4 && CountRead(i, data, selected) && CountIn(i, data, selected).Int?
    requires path != CountPath(i) && Extract(Obj(data), path).Some?
    ensures var v := Extract(Obj(Swollen(i, data)), path);
            v.Some? && TypeOf(v.value) == TypeOf(Extract(Obj(data), path).value)
  {
    if i != 1 {
      ReplacedElsewhere(data, "count", Str(Letters(MAX_SUMMARY_BYTES)), path);
    } else if path != [] && path[0] == "counts" {
      var rest := path[1..];
      assert path == ["counts"] + rest;
      assert rest != ["open"] by {
        assert ["counts"] + ["open"] == ["counts", "open"];
      }
      ReplacedElsewhere(data["counts"].fields, "open", Str(Letters(MAX_SUMMARY_BYTES)), rest);
    }
  }

  lemma SwollenAdmissible(w: World, step: ProposedStep, i: nat, data: Args, selected: string)
    requires 1 <= i < 4 && CountRead(i, data, selected) && CountIn(i, data, selected).Int?
    requires ResultAdmissible(w, step, data) && !DeclaresAs(step.outputs, CountPath(i), SCALARS)
    requires EncodesPlainly(w) && w.encodedSize(data) <= MAX_SMALL_RESULT
    ensures ResultAdmissible(w, step, Swollen(i, data))
  {
    SwollenSerializable(i, data, selected);
    CountAtPath(i, data, selected);
    forall j | 0 <= j < |step.outputs|
      ensures var v := Extract(Obj(Swollen(i, data)), step.outputs[j].path);
              v.Some? && TypeOf(v.value) == step.outputs[j].valueType
    {
      SwollenElsewhere(i, data, selected, step.outputs[j].path);
    }
  }

  // ----- the run with one faulty answer ---------------------------------------------------------------

  /** The same world, except that call `i` returns `data`. */
  function Faulty(w: World, i: nat, data: Args): World {
    w.(execute := (j: nat, tool: string, args: Args) => if j == i then Returned(data, "") else w.execute(j, tool, args))
  }

  /** The worlds in which the same program runs: only registry, tools and store may differ. */
  ghost predicate SameLibrary(w: World, v: World) {
    && v.names == w.names && v.norm == w.norm && v.fold == w.fold && v.encodedSize == w.encodedSize
    && v.printedSize == w.printedSize && v.className == w.className
  }

  lemma SameChecks(w: World, v: World, k: Checks)
    requires SameLibrary(w, v) && ChecksOf(w, k)
    ensures ChecksOf(v, k)
  {
    forall step, i, data, f, g
      ensures JudgedMeans(v, k, step, i, data, f, g)
    {
      assert JudgedMeans(w, k, step, i, data, f, g);
    }
    forall step, i, data, f
      ensures StoredMeans(v, k, step, i, data, f)
    {
      assert StoredMeans(w, k, step, i, data, f);
    }
    forall r, step, results, selected, args
      ensures CallsMeans(v, k, r, step, results, selected, args)
    {
      assert CallsMeans(w, k, r, step, results, selected, args);
    }
    forall plan, r
      ensures MatchesMeans(v, k, plan, r)
    {
      assert MatchesMeans(w, k, plan, r);
    }
  }

  lemma FaultyIsSane(w: World, k: Checks, i: nat, data: Args)
    requires Sane(w, k) && Compact(w)
    ensures SameLibrary(w, Faulty(w, i, data)) && Sane(Faulty(w, i, data), k) && Compact(Faulty(w, i, data))
  {
    EmptyPrints();
    var v := Faulty(w, i, data);
    SameChecks(w, v, k);
    forall j, t, a
      ensures v.execute(j, t, a) == if j == i then Returned(data, "") else w.execute(j, t, a)
    {
    }
  }

  lemma SamePreparation(w: World, k: Checks, plan: Plan, i: nat, data: Args, j: nat, results: Results, selected: string)
    requires ChecksOf(w, k) && j < |plan.steps| == |plan.bound|
    ensures Preparation(Faulty(w, i, data), k, plan, j, results, selected) ==
            Preparation(w, k, plan, j, results, selected)
  {
    var v := Faulty(w, i, data);
    assert v.registryAt == w.registryAt;
    if Preparation(w, k, plan, j, results, selected).Ok? {
      CallsUnique(w, k, w.registryAt(j), plan.steps[j], results, selected,
                  Preparation(w, k, plan, j, results, selected).value,
                  Preparation(v, k, plan, j, results, selected).value);
    }
  }

  lemma SameRead(w: World, k: Checks, plan: Plan, i: nat, data: Args, p: Progress, args: Args)
    requires ChecksOf(w, k) && |p.steps| < |plan.bound| == |plan.steps| && |p.steps| != i
    ensures Read(Faulty(w, i, data), k, plan, p, args) == Read(w, k, plan, p, args)
  {
    var v := Faulty(w, i, data);
    var tool := plan.bound[|p.steps|].tool.name;
    assert v.execute(|p.steps|, tool, args) == w.execute(|p.steps|, tool, args);
    if Read(w, k, plan, p, args).On? {
      JudgedUnique(w, k, plan.steps[|p.steps|], |p.steps|, w.execute(|p.steps|, tool, args).data, p.facts,
                   Read(w, k, plan, p, args).next.facts, Read(v, k, plan, p, args).next.facts);
    }
  }

  /** Until call `i` nothing differs. */
  lemma SameAdvance(w: World, k: Checks, plan: Plan, i: nat, data: Args, p: Progress)
    requires ChecksOf(w, k) && Underway(plan, p) && |p.steps| != i && |p.steps| < |plan.bound| - 1
    ensures Advance(Faulty(w, i, data), k, plan, p) == Advance(w, k, plan, p)
  {
    var results := ResultsOf(plan, p.trace.data);
    SamePreparation(w, k, plan, i, data, |p.steps|, results, p.facts.selected);
    var prepared := Preparation(w, k, plan, |p.steps|, results, p.facts.selected);
    if prepared.Ok? {
      SameRead(w, k, plan, i, data, p, prepared.value);
    }
  }

  /** A mission that ends pending goes on after each of its reads. */
  lemma PendingGoesOn(w: World, k: Checks, plan: Plan, p: Progress)
    requires Underway(plan, p) && |p.steps| < |plan.bound| - 1
    requires Play(w, k, plan, p).record.status == ApprovalPending
    ensures Advance(w, k, plan, p).On?
  {
  }

  /** Where a pending mission stands before call `i`, and that the faulty one stands there too. */
  lemma {:induction false} BeforeCall(w: World, k: Checks, plan: Plan, i: nat, data: Args, p: Progress)
    returns (q: Progress)
    requires Sane(w, k) && PlanConstructed(k.fits, plan) && Underway(plan, p) && InStep(w, k, plan, p)
    requires |p.steps| <= i < |plan.bound| - 1 && Play(w, k, plan, p).record.status == ApprovalPending
    ensures Underway(plan, q) && InStep(w, k, plan, q) && |q.steps| == i
    ensures Play(w, k, plan, q) == Play(w, k, plan, p)
    ensures Play(Faulty(w, i, data), k, plan, q) == Play(Faulty(w, i, data), k, plan, p)
    decreases i - |p.steps|
  {
    if |p.steps| == i {
      q := p;
    } else {
      PendingGoesOn(w, k, plan, p);
      SameAdvance(w, k, plan, i, data, p);
      SaneIsTame(w, k);
      AdvanceKeeps(w, k, plan, p);
      q := BeforeCall(w, k, plan, i, data, Advance(w, k, plan, p).next);
    }
  }

  /** What was returned stays in the trace. */
  lemma {:induction false} DataStays(w: World, k: Checks, plan: Plan, p: Progress)
    requires Underway(plan, p)
    ensures |p.trace.data| <= |Play(w, k, plan, p).trace.data|
    ensures Play(w, k, plan, p).trace.data[..|p.trace.data|] == p.trace.data
    decreases |plan.bound| - |p.steps|
  {
    var move := Advance(w, k, plan, p);
    if move.On? {
      DataGrows(w, k, plan, p);
      DataStays(w, k, plan, move.next);
      assert Play(w, k, plan, p).trace.data[..|move.next.trace.data|][..|p.trace.data|] == p.trace.data;
    }
  }

  /** The read a pending mission performs next: prepared, answered and accepted. */
  lemma NextRead(w: World, k: Checks, plan: Plan, q: Progress)
    requires Underway(plan, q) && |q.steps| < |plan.bound| - 1
    requires Play(w, k, plan, q).record.status == ApprovalPending
    ensures Preparation(w, k, plan, |q.steps|, ResultsOf(plan, q.trace.data), q.facts.selected).Ok?
    ensures |q.steps| < |Play(w, k, plan, q).trace.data|
    ensures !Refused(k, plan, |q.steps|, Play(w, k, plan, q).trace.data[|q.steps|], q.facts)
  {
    PendingGoesOn(w, k, plan, q);
    var next := Advance(w, k, plan, q).next;
    DataStays(w, k, plan, next);
    assert next.trace.data[|q.steps|] == Play(w, k, plan, q).trace.data[..|next.trace.data|][|q.steps|];
  }

  lemma JudgedCount(w: World, k: Checks, plan: Plan, i: nat, data: Args, f: Facts)
    requires ChecksOf(w, k) && 1 <= i < 4 && i < |plan.steps| && !Refused(k, plan, i, data, f)
    ensures ResultAdmissible(w, plan.steps[i], data)
    ensures CountRead(i, data, f.selected) && CountIn(i, data, f.selected).Int?
  {
    var g :| k.judged(plan.steps[i], i, data, f, g);
    assert JudgedMeans(w, k, plan.steps[i], i, data, f, g);
  }

  /** A count that is a text is refused, and taken over all the same. */
  lemma TextCountTakenOver(w: World, k: Checks, plan: Plan, i: nat, data: Args, f: Facts, s: string)
    requires ChecksOf(w, k) && 1 <= i < 4 && i < |plan.steps| && ResultAdmissible(w, plan.steps[i], data)
    requires CountRead(i, data, f.selected) && CountIn(i, data, f.selected) == Str(s)
    ensures Refused(k, plan, i, data, f)
    ensures CountsPrint(w.printedSize, k.stored(plan.steps[i], i, data, f)) >= |s| + 2
  {
    forall g
      ensures !k.judged(plan.steps[i], i, data, f, g)
    {
      assert JudgedMeans(w, k, plan.steps[i], i, data, f, g);
    }
    assert StoredMeans(w, k, plan.steps[i], i, data, f);
    CharsPrintAtLeast(s);
  }

  lemma LongCountUnprinted(w: World, m: MissionRun)
    requires CountsPrint(w.printedSize, m.facts) > MAX_SUMMARY_BYTES
    ensures !Printed(w, m)
  {
  }

  /** At the faulty call the mission fails with a record its constructor refuses. */
  lemma FaultyCall(w: World, k: Checks, plan: Plan, i: nat, data: Args, q: Progress)
    requires ChecksOf(w, k) && Underway(plan, q) && |q.steps| == i && 1 <= i < 4 && i < |plan.bound| - 1
    requires Preparation(w, k, plan, i, ResultsOf(plan, q.trace.data), q.facts.selected).Ok?
    requires ResultAdmissible(w, plan.steps[i], data) && CountRead(i, data, q.facts.selected)
    requires CountIn(i, data, q.facts.selected) == Str(Letters(MAX_SUMMARY_BYTES))
    ensures var m := Play(Faulty(w, i, data), k, plan, q).record;
            m.status == Failed && !Printed(Faulty(w, i, data), m)
  {
    var v := Faulty(w, i, data);
    var results := ResultsOf(plan, q.trace.data);
    SamePreparation(w, k, plan, i, data, i, results, q.facts.selected);
    var args := Preparation(v, k, plan, i, results, q.facts.selected).value;
    assert v.execute(i, plan.bound[i].tool.name, args) == Returned(data, "");
    TextCountTakenOver(w, k, plan, i, data, q.facts, Letters(MAX_SUMMARY_BYTES));
    LongCountUnprinted(v, Play(v, k, plan, q).record);
  }

  /** A plan that can succeed on results of moderate size. */
  ghost predicate CanSucceed(w: World, k: Checks, plan: Plan)
    requires 1 <= |plan.steps| == |plan.bound|
  {
    var e := Run(w, k, plan);
    && e.record.status == ApprovalPending
    && forall i :: 0 <= i < |e.trace.data| ==> w.encodedSize(e.trace.data[i]) <= MAX_SMALL_RESULT
  }

  /** If a step of such a plan leaves its count undeclared, a tool can make the constructor refuse the record. */
  lemma UndeclaredCountRefused(w: World, k: Checks, plan: Plan, i: nat) returns (v: World)
    requires Admitted(w, k, plan) && EncodesPlainly(w) && CanSucceed(w, k, plan)
    requires 1 <= i < 4 && i < |plan.steps| && !DeclaresAs(plan.steps[i].outputs, CountPath(i), SCALARS)
    ensures SameLibrary(w, v) && Admitted(v, k, plan)
    ensures Run(v, k, plan).record.status == Failed && !Accepted(v, k.fits, v.names[4], Run(v, k, plan).record)
  {
    StartInStep(w, k, plan);
    RunIsVouched(w, k, plan);
    var data := Run(w, k, plan).trace.data[i];
    var counted := i == 1 ==> "counts" in data && data["counts"].Obj?;
    var swollen := if counted then Swollen(i, data) else data;
    v := Faulty(w, i, swollen);
    FaultyIsSane(w, k, i, swollen);
    var q := BeforeCall(w, k, plan, i, swollen, START);
    NextRead(w, k, plan, q);
    JudgedCount(w, k, plan, i, data, q.facts);
    SwollenCount(i, data, q.facts.selected);
    SwollenAdmissible(w, plan.steps[i], i, data, q.facts.selected);
    FaultyCall(w, k, plan, i, swollen, q);
  }

  /** Whatever registry, tools and store do, the constructor accepts the record. */
  ghost predicate AlwaysAccepted(w: World, k: Checks, plan: Plan)
    requires 1 <= |plan.steps| == |plan.bound|
  {
    forall v :: SameLibrary(w, v) && Admitted(v, k, plan) ==>
      Accepted(v, k.fits, v.names[4], Run(v, k, plan).record)
  }

  /** A plan that can succeed yields an accepted record against every registry, tool and store if and only if its
      summary, list and search steps declare their counts with types of bounded print. */
  lemma AcceptedExactlyWhenDeclared(w: World, k: Checks, plan: Plan)
    requires Admitted(w, k, plan) && EncodesPlainly(w) && CanSucceed(w, k, plan)
    ensures AlwaysAccepted(w, k, plan) <==> DeclaresCounts(plan)
  {
    if DeclaresCounts(plan) {
      forall v | SameLibrary(w, v) && Admitted(v, k, plan)
        ensures Accepted(v, k.fits, v.names[4], Run(v, k, plan).record)
      {
        DeclaredCountsSuffice(v, k, plan);
      }
    } else {
      var i :| 1 <= i < 4 && i < |plan.steps| && !DeclaresAs(plan.steps[i].outputs, CountPath(i), SCALARS);
      var v := UndeclaredCountRefused(w, k, plan, i);
    }
  }
}
