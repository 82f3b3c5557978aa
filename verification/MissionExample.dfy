/** A mission on the registered schemas: with the search step's count declared its record is always accepted,
    without it a tool can make the constructor refuse the record (backend/composition_runtime.py). */
module MissionExample {
  import opened PyText
  import opened Json
  import opened Validation
  import opened Tools
  import opened Feasibility
  import opened Printing
  import opened Mission
  import opened MissionLimit

  // ----- tools and plan ------------------------------------------------------------------------------

  function Range(low: int, high: int): Spec {
    Spec(IntegerKind, None, None, None, false, Some(low), Some(high))
  }

  function OneOf(choices: seq<string>): Spec {
    Spec(StringKind, None, None, Some(choices), false, None, None)
  }

  /** The registered schemas by position. */
  function SchemaAt(i: nat): Schema {
    match i
    case 2 =>
      Schema([Property("status", OneOf(["cancelled", "completed", "open"])), Property("project", Text(1, 100)),
              Property("limit", Range(1, 100))], [], false)
    case 3 =>
      Schema([Property("query", Text(1, 500)), Property("project", Text(1, 100)), Property("limit", Range(1, 50))],
             ["query"], false)
    case 4 => TASKS_CREATE
    case _ => Schema([Property("project", Text(1, 100))], [], false)
  }

  function RiskAt(i: nat): Risk {
    if i == 4 then InternalWrite else ReadOnly
  }

  function ToolAt(i: nat): Tool {
    Tool("1", RiskAt(i), SchemaAt(i), {"c"}, {})
  }

  function IndexOf(names: seq<string>, name: string): (i: nat)
    requires |names| == 5
  {
    if name == names[0] then 0 else if name == names[1] then 1 else if name == names[2] then 2
    else if name == names[3] then 3 else 4
  }

  function Tools5(names: seq<string>): Registry
    requires |names| == 5
  {
    map name | name in names :: ToolAt(IndexOf(names, name))
  }

  lemma ToolsByPosition(names: seq<string>, i: nat)
    requires DistinctNames(names) && i < 5
    ensures names[i] in Tools5(names) && Tools5(names)[names[i]] == ToolAt(i)
  {
  }

  /** The one argument each step binds, a literal. */
  function ArgumentAt(i: nat): string {
    match i
    case 3 => "query"
    case 4 => "title"
    case _ => "project"
  }

  function BindingsAt(i: nat): seq<Binding> {
    if i == 0 then [] else [Literal(ArgumentAt(i), Str("P"))]
  }

  /** The declared outputs; the search step declares its count only if `declared`. */
  function OutputsAt(i: nat, declared: bool): seq<Output> {
    match i
    case 0 => [Output(["projects"], "array"), Output(["truncated"], "boolean")]
    case 1 => [Output(["counts", "open"], "integer"), Output(["project"], "string")]
    case 2 => [Output(["tasks"], "array"), Output(["count"], "integer")]
    case 3 =>
      [Output(["memories"], "array"), Output(["query"], "string")] +
      if declared then [Output(["count"], "integer")] else []
    case _ => []
  }

  function IdAt(i: nat): string
    requires i < 5
  {
    [(('a' as int) + i) as char]
  }

  function StepAt(names: seq<string>, i: nat, declared: bool): ProposedStep
    requires |names| == 5 && i < 5
  {
    ProposedStep(IdAt(i), "c", names[i], RiskAt(i), BindingsAt(i), [], OutputsAt(i, declared))
  }

  function StepsOf(names: seq<string>, declared: bool): (steps: seq<ProposedStep>)
    requires |names| == 5
    ensures |steps| == 5 && forall i :: 0 <= i < 5 ==> steps[i] == StepAt(names, i, declared)
  {
    seq(5, i requires 0 <= i < 5 => StepAt(names, i, declared))
  }

  function PlanOf(names: seq<string>, declared: bool): Plan
    requires |names| == 5
  {
    Plan("m", StepsOf(names, declared),
         seq(5, i requires 0 <= i < 5 => Bind(StepAt(names, i, declared), ToolAt(i))))
  }

  // ----- answers ----------------------------------------------------------------------------------------

  function AnswerAt(i: nat): Args {
    match i
    case 0 =>
      map["truncated" := Bool(false), "projects" := Arr([Obj(map["name" := Str("P"), "open_tasks" := Int(0)])])]
    case 1 => map["project" := Str("P"), "counts" := Obj(map["open" := Int(0)])]
    case 2 => map["tasks" := Arr([]), "count" := Int(0)]
    case _ => map["memories" := Arr([]), "query" := Str("P"), "count" := Int(0)]
  }

  function FactsAt(i: nat): Facts {
    match i
    case 0 => NOTHING
    case 1 => FactsAt(0).(selected := "P")
    case 2 => FactsAt(1).(open := Int(0))
    case 3 => FactsAt(2).(listed := Int(0))
    case _ => FactsAt(3).(memories := Int(0))
  }

  /** Tools and store that answer as they should, on top of any libraries. */
  function Example(library: World): World
    requires |library.names| == 5
  {
    library.(registryAt := (i: nat) => Tools5(library.names),
    execute := (i: nat, tool: string, args: Args) => Returned(AnswerAt(i), "r"),
    freeze := (tool: string, version: string, args: Args) => Ok("o"))
  }

  /** Any libraries that fold, encode, print and name exceptions as they promise. */
  ghost predicate LibraryOk(w: World, k: Checks) {
    && DistinctNames(w.names) && ChecksOf(w, k) && EncodesPlainly(w) && FloatsAreShort(w.printedSize)
    && (forall c :: k.fits(w.className(c), 200) && w.className(c) != "" && PrintsWithin(w.className(c), 200))
    && (forall i :: 0 <= i < 5 ==> k.fits(w.names[i], 128) && PrintsWithin(w.names[i], 128))
    && (forall i: nat :: i < 4 ==> w.encodedSize(AnswerAt(i)) <= MAX_SMALL_RESULT)
  }

  // ----- the plan is feasible ---------------------------------------------------------------------------

  lemma ArgumentDeclared(i: nat)
    requires 1 <= i < 5
    ensures var p := FindProperty(SchemaAt(i).properties, ArgumentAt(i));
            p.Some? && p.value.spec.kind == StringKind
  {
    var ps := SchemaAt(i).properties;
    assert |"status"| == 6 && |"project"| == 7;
    assert i == 2 ==> ps[1..][0].name == "project";
  }

  lemma StepFeasible(names: seq<string>, declared: bool, i: nat)
    requires DistinctNames(names) && i < 5
    ensures StepFits(StepsOf(names, declared), Tools5(names), StepAt(names, i, declared), ToolAt(i))
  {
    var step := StepAt(names, i, declared);
    if i > 0 {
      ArgumentDeclared(i);
      assert step.bindings[0].argument == ArgumentAt(i);
    }
  }

  lemma ResolvesTo(names: seq<string>, steps: seq<ProposedStep>, registry: Registry, bound: seq<BoundStep>)
    requires BaselineOrder(names, steps) && |bound| == |steps|
    requires forall i :: 0 <= i < |steps| ==> FitsAs(steps, registry, steps[i], bound[i])
    ensures Resolve(names, steps, registry) == Some(bound)
  {
    forall i | 0 <= i < |steps|
      ensures steps[i].tool in registry && StepFits(steps, registry, steps[i], registry[steps[i].tool])
      ensures bound[i] == Bind(steps[i], registry[steps[i].tool])
    {
      assert FitsAs(steps, registry, steps[i], bound[i]);
    }
    assert Feasible(names, steps, registry);
    assert Resolve(names, steps, registry).value == bound;
  }

  ghost predicate FitsAs(steps: seq<ProposedStep>, registry: Registry, step: ProposedStep, bound: BoundStep) {
    && step.tool in registry && StepFits(steps, registry, step, registry[step.tool])
    && bound == Bind(step, registry[step.tool])
  }

  lemma StepFitsAs(names: seq<string>, declared: bool, i: nat)
    requires DistinctNames(names) && i < 5
    ensures FitsAs(StepsOf(names, declared), Tools5(names), StepAt(names, i, declared),
                   PlanOf(names, declared).bound[i])
  {
    ToolsByPosition(names, i);
    StepFeasible(names, declared, i);
  }

  lemma PlanFeasible(names: seq<string>, declared: bool)
    requires DistinctNames(names)
    ensures RegistryMatches(names, PlanOf(names, declared), Tools5(names))
  {
    var steps, bound := StepsOf(names, declared), PlanOf(names, declared).bound;
    forall i | 0 <= i < |steps|
      ensures FitsAs(steps, Tools5(names), steps[i], bound[i])
    {
      StepFitsAs(names, declared, i);
    }
    ResolvesTo(names, steps, Tools5(names), bound);
  }

  // ----- every step can be called -----------------------------------------------------------------------

  lemma LetterStrips(c: char)
    requires !IsSpace(c)
    ensures Strip([c]) == [c]
  {
  }

  lemma TitleValidates(norm: Normaliser, i: nat)
    requires 1 <= i < 5
    ensures Validate(norm, SchemaAt(i), map[ArgumentAt(i) := Str("P")]).Ok?
  {
    var schema, args := SchemaAt(i), map[ArgumentAt(i) := Str("P")];
    var ps := schema.properties;
    LetterStrips('P');
    assert |"status"| == 6 && |"project"| == 7 && |"query"| == 5 && |"limit"| == 5 && |"title"| == 5 && |"due_at"| == 6;
    assert "query"[0] != "limit"[0] && "title"[0] != "limit"[0] && "query"[0] != "title"[0];
    forall j | 0 <= j < |ps|
      ensures Satisfied(norm, ps[j], schema.required, args)
    {
    }
    AcceptedMeaning(norm, ps, schema.required, args);
    ArgumentListed(i);
    assert args.Keys == {ArgumentAt(i)};
  }

  lemma ArgumentListed(i: nat)
    requires 1 <= i < 5
    ensures ArgumentAt(i) in Names(SchemaAt(i).properties)
  {
    var ps := SchemaAt(i).properties;
    assert ps[if i == 2 then 1 else 0].name == ArgumentAt(i);
  }

  function RawAt(i: nat): Args {
    if i == 0 then map[] else map[ArgumentAt(i) := Str("P")]
  }

  lemma RawValidates(norm: Normaliser, i: nat)
    requires i < 5
    ensures Validate(norm, SchemaAt(i), RawAt(i)).Ok?
  {
    if i == 0 {
      AcceptedMeaning(norm, SchemaAt(0).properties, [], map[]);
    } else {
      TitleValidates(norm, i);
    }
  }

  lemma RawMaterialized(fold: string -> string, i: nat, results: Results, selected: string)
    ensures Materialized(fold, BindingsAt(i), results, selected, RawAt(i))
  {
    if i > 0 {
      assert BindingsAt(i)[0] == Literal(ArgumentAt(i), Str("P"));
    }
  }

  lemma AlwaysCallable(w: World, k: Checks, declared: bool, i: nat, results: Results, selected: string)
    requires DistinctNames(w.names) && ChecksOf(w, k) && i < 5
    ensures !Uncallable(k, Tools5(w.names), StepAt(w.names, i, declared), results, selected)
  {
    ToolsByPosition(w.names, i);
    RawValidates(w.norm, i);
    RawMaterialized(w.fold, i, results, selected);
    var args := Validate(w.norm, SchemaAt(i), RawAt(i)).value;
    assert CallArguments(w, Tools5(w.names), StepAt(w.names, i, declared), results, selected, args);
    assert CallsMeans(w, k, Tools5(w.names), StepAt(w.names, i, declared), results, selected, args);
  }

  // ----- every answer is accepted -------------------------------------------------------------------------

  lemma AnswersSerializable(i: nat)
    requires i < 4
    ensures Serializable(Obj(AnswerAt(i)))
  {
    assert NatText(0) == [Digit(0)] && Serializable(Int(0));
    var project := Obj(map["name" := Str("P"), "open_tasks" := Int(0)]);
    assert Serializable(project) && Serializable(Arr([project])) && Serializable(Obj(map["open" := Int(0)]));
  }

  lemma ExtractField(data: Args, key: string)
    requires key in data
    ensures Extract(Obj(data), [key]) == Some(data[key])
  {
    assert [key][1..] == [];
  }

  lemma OutputsPresent(names: seq<string>, declared: bool, i: nat)
    requires |names| == 5 && i < 4
    ensures DeclaredOutputsPresent(StepAt(names, i, declared), AnswerAt(i))
  {
    var data := AnswerAt(i);
    match i
    case 0 =>
      ExtractField(data, "projects");
      ExtractField(data, "truncated");
    case 1 =>
      ExtractOpen(data);
      ExtractField(data, "project");
    case 2 =>
      ExtractField(data, "tasks");
      ExtractField(data, "count");
    case _ =>
      ExtractField(data, "memories");
      ExtractField(data, "query");
      ExtractField(data, "count");
  }

  lemma OnlyProjectSelected(fold: string -> string)
    ensures IsSelection(fold, AnswerAt(0)["projects"], "P")
  {
    LetterStrips('P');
    var projects := AnswerAt(0)["projects"];
    assert "P"[..0] == "" && Utf8Length("P") == 1;
    assert IsProject(projects.items[0]) && NameOf(projects.items[0]) == "P";
    var cs := Candidates(fold, projects);
    BeatsTotalPreorder(cs[0], cs[0], cs[0]);
    assert IsBest(cs, 0) && cs[0].name == "P";
  }

  lemma AnswerTeaches(fold: string -> string, i: nat)
    requires i < 4
    ensures Learns(fold, i, AnswerAt(i), FactsAt(i), FactsAt(i + 1))
  {
    if i == 0 {
      OnlyProjectSelected(fold);
    }
  }

  lemma AnswerJudged(w: World, k: Checks, declared: bool, i: nat)
    requires LibraryOk(w, k) && i < 4
    ensures k.judged(StepAt(w.names, i, declared), i, AnswerAt(i), FactsAt(i), FactsAt(i + 1))
  {
    AnswersSerializable(i);
    OutputsPresent(w.names, declared, i);
    AnswerTeaches(w.fold, i);
    assert JudgedMeans(w, k, StepAt(w.names, i, declared), i, AnswerAt(i), FactsAt(i), FactsAt(i + 1));
  }

  // ----- the mission succeeds -------------------------------------------------------------------------------

  lemma LetterBounded(c: char, limit: nat)
    requires !IsSpace(c) && ' ' < c < '\U{007F}' && limit >= 1
    ensures BoundedText([c], limit) && PrintsWithin([c], limit)
  {
    LetterStrips(c);
    assert [c][..0] == "" && Utf8Length([c]) == 1;
    StrippedPrintsWithin([c], limit);
  }

  lemma LettersFit(w: World, k: Checks)
    requires ChecksOf(w, k)
    ensures k.fits("1", 128) && PrintsWithin("1", 128) && PrintsWithin("m", 128) && PrintsWithin("o", 128)
    ensures k.fits("r", 128) && PrintsWithin("r", 128)
    ensures forall i: nat :: i < 5 ==> k.fits(IdAt(i), 128) && PrintsWithin(IdAt(i), 128)
  {
    LetterBounded('1', 128);
    LetterBounded('m', 128);
    LetterBounded('o', 128);
    LetterBounded('r', 128);
    assert FitsMeans(k, "1", 128) && FitsMeans(k, "r", 128);
    forall i: nat | i < 5
      ensures k.fits(IdAt(i), 128) && PrintsWithin(IdAt(i), 128)
    {
      LetterBounded((('a' as int) + i) as char, 128);
      assert FitsMeans(k, IdAt(i), 128);
    }
  }

  lemma PlanIsAdmitted(w: World, k: Checks, declared: bool)
    requires LibraryOk(w, k)
    ensures PlanConstructed(k.fits, PlanOf(w.names, declared)) && PlanPrints(PlanOf(w.names, declared))
  {
    LettersFit(w, k);
    var plan := PlanOf(w.names, declared);
    forall i | 0 <= i < 5
      ensures StepRunAccepted(k.fits, Skipped(plan.bound[i])) && BoundPrints(plan.bound[i])
    {
      assert plan.bound[i] == Bind(StepAt(w.names, i, declared), ToolAt(i));
    }
  }

  lemma ExampleIsAdmitted(library: World, k: Checks, declared: bool)
    requires LibraryOk(library, k)
    ensures SameLibrary(library, Example(library)) && Admitted(Example(library), k, PlanOf(library.names, declared))
  {
    LettersFit(library, k);
    SameChecks(library, Example(library), k);
    PlanIsAdmitted(library, k, declared);
  }

  lemma AnswersObserved(library: World, t: Trace)
    requires |library.names| == 5 && Observed(Example(library), t)
    ensures forall i :: 0 <= i < |t.data| ==> t.data[i] == AnswerAt(i)
  {
    forall i | 0 <= i < |t.data|
      ensures t.data[i] == AnswerAt(i)
    {
      assert Answered(Example(library), i, t.executed[i], t.data[i]);
    }
  }

  /** The answers lead to one state of knowledge. */
  lemma {:induction false} EvidenceIsFacts(w: World, k: Checks, declared: bool, data: seq<Args>, f: Facts)
    requires LibraryOk(w, k) && |data| <= 4 && Evidence(k, StepsOf(w.names, declared), data, f)
    requires forall i :: 0 <= i < |data| ==> data[i] == AnswerAt(i)
    ensures f == FactsAt(|data|)
    decreases |data|
  {
    if data != [] {
      var n := |data| - 1;
      var earlier := data[..n];
      var g :| Evidence(k, StepsOf(w.names, declared), earlier, g)
               && k.judged(StepsOf(w.names, declared)[n], n, data[n], g, f);
      EvidenceIsFacts(w, k, declared, earlier, g);
      AnswerJudged(w, k, declared, n);
      JudgedUnique(w, k, StepAt(w.names, n, declared), n, AnswerAt(n), g, f, FactsAt(n + 1));
    }
  }

  lemma NothingRefused(w: World, k: Checks, declared: bool, data: seq<Args>, known: Facts)
    requires LibraryOk(w, k) && |data| <= 4 && forall i :: 0 <= i < |data| ==> data[i] == AnswerAt(i)
    ensures !LastRefused(k, PlanOf(w.names, declared), data, known)
  {
    if LastRefused(k, PlanOf(w.names, declared), data, known) {
      var n := |data| - 1;
      EvidenceIsFacts(w, k, declared, data[..n], known);
      AnswerJudged(w, k, declared, n);
      assert false;
    }
  }

  lemma NeverStops(library: World, k: Checks, declared: bool, data: seq<Args>, selected: string)
    requires LibraryOk(library, k)
    ensures !StopsBefore(Example(library), k, PlanOf(library.names, declared), data, selected)
  {
    var plan := PlanOf(library.names, declared);
    PlanFeasible(library.names, declared);
    assert MatchesMeans(library, k, plan, Tools5(library.names));
    if |data| < 5 {
      AlwaysCallable(library, k, declared, |data|, ResultsOf(plan, data), selected);
    }
  }

  /** With tools that answer as they should the mission ends with a pending write, whether or not the search step
      declares its count. */
  lemma ExampleSucceeds(library: World, k: Checks, declared: bool)
    requires LibraryOk(library, k)
    ensures CanSucceed(Example(library), k, PlanOf(library.names, declared))
  {
    var w, plan := Example(library), PlanOf(library.names, declared);
    ExampleIsAdmitted(library, k, declared);
    RunIsVouched(w, k, plan);
    var e := Run(w, k, plan);
    AnswersObserved(library, e.trace);
    NeverStops(library, k, declared, e.trace.data, e.record.facts.selected);
    forall known
      ensures !LastRefused(k, plan, e.trace.data, known)
    {
      NothingRefused(library, k, declared, e.trace.data, known);
    }
  }

  lemma CountsDeclared(names: seq<string>)
    requires |names| == 5
    ensures DeclaresCounts(PlanOf(names, true))
  {
    forall i | 1 <= i < 4
      ensures DeclaresAs(OutputsAt(i, true), CountPath(i), SCALARS)
    {
      assert OutputsAt(i, true)[i - 1] == Output(CountPath(i), "integer");
    }
  }

  lemma CountUndeclared()
    ensures !DeclaresAs(OutputsAt(3, false), CountPath(3), SCALARS)
  {
    var outputs := OutputsAt(3, false);
    assert |outputs| == 2 && outputs[0].path == ["memories"] && outputs[1].path == ["query"];
    assert |"memories"| == 8 && |"query"| == 5 && |"count"| == 5 && "query"[0] != "count"[0];
    assert ["memories"][0] != ["count"][0] && ["query"][0] != ["count"][0];
  }

  /** With every count declared the record is accepted whatever registry, tools and store do. */
  lemma DeclaredExampleAccepted(library: World, k: Checks)
    requires LibraryOk(library, k)
    ensures AlwaysAccepted(Example(library), k, PlanOf(library.names, true))
  {
    var plan := PlanOf(library.names, true);
    CountsDeclared(library.names);
    ExampleIsAdmitted(library, k, true);
    forall v | SameLibrary(Example(library), v) && Admitted(v, k, plan)
      ensures Accepted(v, k.fits, v.names[4], Run(v, k, plan).record)
    {
      DeclaredCountsSuffice(v, k, plan);
    }
  }

  /** Without the search step's declaration, the search may answer with a text for its count: the mission fails,
      and the constructor refuses the record of that failure. */
  lemma UndeclaredExampleRefused(library: World, k: Checks) returns (v: World)
    requires LibraryOk(library, k)
    ensures SameLibrary(library, v) && Admitted(v, k, PlanOf(library.names, false))
    ensures var m := Run(v, k, PlanOf(library.names, false)).record;
            m.status == Failed && !Accepted(v, k.fits, v.names[4], m)
  {
    var w, plan := Example(library), PlanOf(library.names, false);
    ExampleIsAdmitted(library, k, false);
    ExampleSucceeds(library, k, false);
    CountUndeclared();
    v := UndeclaredCountRefused(w, k, plan, 3);
  }
}
