/** What feasibility buys at run time: in a feasible plan every binding delivers a value of the type its argument
    declares, so validation can refuse a step's arguments only for their bounds
    (backend/composition_feasibility.py, backend/composition_runtime.py). */
module FeasibleTyping {
  import opened PyText
  import opened Json
  import opened Validation
  import opened Tools
  import opened Feasibility
  import opened Mission

  lemma {:induction false} FirstOutputDeclared(outputs: seq<Output>, path: seq<string>)
    ensures FirstOutput(outputs, path).Some? ==>
              exists j :: 0 <= j < |outputs| && outputs[j] == Output(path, FirstOutput(outputs, path).value)
  {
    if outputs != [] && outputs[0].path != path {
      FirstOutputDeclared(outputs[1..], path);
      if FirstOutput(outputs[1..], path).Some? {
        var j :| 0 <= j < |outputs[1..]| && outputs[1..][j] == Output(path, FirstOutput(outputs[1..], path).value);
        assert outputs[j + 1] == outputs[1..][j];
      }
    }
  }

  lemma {:induction false} FoundProperty(ps: seq<Property>, name: string)
    ensures FindProperty(ps, name).Some? ==>
              FindProperty(ps, name).value in ps && FindProperty(ps, name).value.name == name
    ensures FindProperty(ps, name).Some? <==> name in Names(ps)
  {
    if ps != [] {
      FoundProperty(ps[1..], name);
      assert ps == [ps[0]] + ps[1..];
      assert forall i :: 0 <= i < |ps[1..]| ==> ps[1..][i] == ps[i + 1];
      assert Names(ps) == {ps[0].name} + Names(ps[1..]) by {
        forall k | k in Names(ps)
          ensures k in {ps[0].name} + Names(ps[1..])
        {
          var i :| 0 <= i < |ps| && ps[i].name == k;
          assert i > 0 ==> ps[1..][i - 1] == ps[i];
        }
      }
    }
  }

  /** Every result so far is one of the plan's steps' and has the outputs that step declared. */
  ghost predicate ResultsDeclared(steps: seq<ProposedStep>, results: Results) {
    forall id :: id in results ==>
      FindStep(steps, id).Some? && DeclaredOutputsPresent(FindStep(steps, id).value, results[id])
  }

  /** What a binding delivers has the type that was foreseen. */
  lemma DeliversForeseenType(fold: string -> string, steps: seq<ProposedStep>, b: Binding, results: Results,
                             selected: string, out: Value)
    requires ResultsDeclared(steps, results) && Binds(fold, b, results, selected, out) && OutputType(steps, b).Some?
    ensures TypeOf(out) == OutputType(steps, b).value
  {
    if b.FromResult? {
      var step := FindStep(steps, b.source).value;
      FirstOutputDeclared(step.outputs, b.path);
    }
  }

  /** The value fits the kind its property declares. */
  predicate HasKind(kind: Kind, v: Value) {
    match kind
    case StringKind => v.Str?
    case IntegerKind => v.Int?
    case BooleanKind => v.Bool?
    case OtherKind(_) => true
  }

  lemma CompatibleKind(kind: Kind, v: Value)
    ensures Compatible(TypeOf(v), KindName(kind)) ==> HasKind(kind, v)
  {
    assert |"string"| == 6 && |"integer"| == |"boolean"| == 7 && "integer"[0] != "boolean"[0];
    assert |"null"| == 4 && |"number"| == 6 && |"array"| == 5 && |"object"| == 6 && "string"[0] != "number"[0];
    assert "string"[0] != "object"[0];
  }

  lemma FoundIsUnique(ps: seq<Property>, p: Property)
    requires Distinct(ps) && p in ps
    ensures FindProperty(ps, p.name) == Some(p)
  {
    FoundProperty(ps, p.name);
    var i :| 0 <= i < |ps| && ps[i] == p;
    assert p.name in Names(ps);
    var q := FindProperty(ps, p.name).value;
    var j :| 0 <= j < |ps| && ps[j] == q;
  }

  /** In a feasible step every materialised argument is a declared property and has its kind. */
  lemma FeasibleArgumentsAreTyped(fold: string -> string, steps: seq<ProposedStep>, registry: Registry,
                                  step: ProposedStep, tool: Tool, results: Results, selected: string, raw: Args,
                                  p: Property)
    requires StepFits(steps, registry, step, tool) && ResultsDeclared(steps, results)
    requires Materialized(fold, step.bindings, results, selected, raw) && Distinct(tool.schema.properties)
    requires p in tool.schema.properties && p.name in raw
    ensures HasKind(p.spec.kind, raw[p.name])
  {
    var i :| 0 <= i < |step.bindings| && step.bindings[i].argument == p.name;
    assert BindingFits(steps, tool.schema, step.bindings[i]);
    FoundIsUnique(tool.schema.properties, p);
    CompatibleKind(p.spec.kind, raw[p.name]);
    DeliversForeseenType(fold, steps, step.bindings[i], results, selected, raw[p.name]);
  }

  lemma NoForeignArguments(fold: string -> string, steps: seq<ProposedStep>, registry: Registry, step: ProposedStep,
                           tool: Tool, results: Results, selected: string, raw: Args)
    requires StepFits(steps, registry, step, tool) && Materialized(fold, step.bindings, results, selected, raw)
    ensures raw.Keys <= Names(tool.schema.properties)
    ensures forall k :: k in tool.schema.required ==> k in raw
  {
    forall k | k in raw
      ensures k in Names(tool.schema.properties)
    {
      var i :| 0 <= i < |step.bindings| && step.bindings[i].argument == k;
      assert BindingFits(steps, tool.schema, step.bindings[i]);
      FoundProperty(tool.schema.properties, k);
    }
    forall k | k in tool.schema.required
      ensures k in raw
    {
      var i :| 0 <= i < |step.bindings| && step.bindings[i].argument == k;
    }
  }

  /** Refusals that concern only how large, long or well formed a value is, or a kind no validator knows. */
  predicate BoundsOnly(e: Rejection) {
    e in {TooShort, TooLong, NotAChoice, BadDatetime, TooSmall, TooLarge, UnsupportedKind}
  }

  ghost predicate KnownKind(k: Kind) {
    !k.OtherKind?
  }

  /** Why the checks over the properties fail: some property fails its own. */
  lemma {:induction false} ErrorOfSomeProperty(norm: Normaliser, ps: seq<Property>, required: seq<string>, args: Args)
    requires Checked(norm, ps, required, args).Err?
    ensures exists p :: p in ps && PropertyError(norm, p, required, args, Checked(norm, ps, required, args).error)
  {
    var front, last := ps[..|ps| - 1], ps[|ps| - 1];
    assert ps == front + [last];
    if Checked(norm, front, required, args).Err? {
      ErrorOfSomeProperty(norm, front, required, args);
    } else {
      assert PropertyError(norm, last, required, args, Checked(norm, ps, required, args).error);
    }
  }

  ghost predicate PropertyError(norm: Normaliser, p: Property, required: seq<string>, args: Args, e: Rejection) {
    if Provided(args, p.name) then ValidateValue(norm, p.spec, args[p.name]) == Err(e)
    else p.name in required && e == MissingRequired(p.name)
  }

  lemma TypedFailsOnlyOnBounds(norm: Normaliser, spec: Spec, v: Value)
    requires HasKind(spec.kind, v) && KnownKind(spec.kind) && ValidateValue(norm, spec, v).Err?
    ensures BoundsOnly(ValidateValue(norm, spec, v).error)
  {
  }

  lemma TypedPropertyError(norm: Normaliser, p: Property, required: seq<string>, args: Args, e: Rejection)
    requires PropertyError(norm, p, required, args, e) && KnownKind(p.spec.kind)
    requires p.name in required ==> p.name in args
    requires p.name in args ==> HasKind(p.spec.kind, args[p.name])
    ensures BoundsOnly(e)
  {
    if Provided(args, p.name) {
      TypedFailsOnlyOnBounds(norm, p.spec, args[p.name]);
    }
  }

  /** In a feasible plan whose properties have known kinds, validation refuses a step's arguments only for their
      bounds: never as unknown, missing or of the wrong kind. */
  lemma FeasibleFailsOnlyOnBounds(norm: Normaliser, fold: string -> string, steps: seq<ProposedStep>,
                                  registry: Registry, step: ProposedStep, tool: Tool, results: Results,
                                  selected: string, raw: Args)
    requires StepFits(steps, registry, step, tool) && ResultsDeclared(steps, results)
    requires Materialized(fold, step.bindings, results, selected, raw) && Distinct(tool.schema.properties)
    requires forall p :: p in tool.schema.properties ==> KnownKind(p.spec.kind)
    ensures Validate(norm, tool.schema, raw).Err? ==> BoundsOnly(Validate(norm, tool.schema, raw).error)
  {
    NoForeignArguments(fold, steps, registry, step, tool, results, selected, raw);
    if Validate(norm, tool.schema, raw).Err? {
      var ps, e := tool.schema.properties, Validate(norm, tool.schema, raw).error;
      ErrorOfSomeProperty(norm, ps, tool.schema.required, raw);
      var p :| p in ps && PropertyError(norm, p, tool.schema.required, raw, e);
      if p.name in raw {
        FeasibleArgumentsAreTyped(fold, steps, registry, step, tool, results, selected, raw, p);
      }
      TypedPropertyError(norm, p, tool.schema.required, raw, e);
    }
  }

  /** What no result may decide: the tool, the capability, its risk, schema and executor, the budget, approval. */
  lemma ResultsCarryNoAuthority(steps: seq<ProposedStep>, registry: Registry, step: ProposedStep, tool: Tool,
                                b: Binding)
    requires StepFits(steps, registry, step, tool) && b in step.bindings && b.FromResult?
    ensures b.argument != "tool_name" && b.argument != "capability_id" && b.argument != "risk"
    ensures b.argument != "schema" && b.argument != "executor" && b.argument != "budget" && b.argument != "approval"
  {
    var i :| 0 <= i < |step.bindings| && step.bindings[i] == b;
    assert BindingFits(steps, tool.schema, step.bindings[i]);
  }

  /** A feasible step runs a tool of the risk it was reviewed with, never a high one, that has the capability asked for
      and whose dependencies are registered. */
  lemma FeasibleStepIsReviewed(names: seq<string>, steps: seq<ProposedStep>, registry: Registry, i: nat)
    requires Feasible(names, steps, registry) && i < |steps|
    ensures steps[i].tool == names[i] && steps[i].tool in registry
    ensures var tool := registry[steps[i].tool];
            && tool.risk == steps[i].expectedRisk == (if i == 4 then InternalWrite else ReadOnly)
            && steps[i].capability in tool.capabilities
            && forall d :: d in tool.dependsOn ==> d in registry
  {
    assert StepFits(steps, registry, steps[i], registry[steps[i].tool]);
  }

  // ----- in a mission -----------------------------------------------------------------------------------

  ghost predicate DistinctSteps(steps: seq<ProposedStep>) {
    forall i, j :: 0 <= i < j < |steps| ==> steps[i].id != steps[j].id
  }

  lemma {:induction false} FoundStep(steps: seq<ProposedStep>, i: nat)
    requires DistinctSteps(steps) && i < |steps|
    ensures FindStep(steps, steps[i].id) == Some(steps[i])
  {
    if i < |steps| - 1 {
      FoundStep(steps[..|steps| - 1], i);
    }
  }

  /** The accepted results of a mission have their declared outputs. */
  lemma {:induction false} EvidenceIsDeclared(w: World, k: Checks, plan: Plan, data: seq<Args>, f: Facts)
    requires ChecksOf(w, k) && |data| <= |plan.steps| && Evidence(k, plan.steps, data, f) && DistinctSteps(plan.steps)
    ensures ResultsDeclared(plan.steps, ResultsOf(plan, data))
    decreases |data|
  {
    if data != [] {
      var n := |data| - 1;
      var g := LastJudgement(w, k, plan.steps, data, f);
      EvidenceIsDeclared(w, k, plan, data[..n], g);
      FoundStep(plan.steps, n);
    }
  }

  /** Before every step of a mission: under a registry that still matches, whatever arguments are bound from the
      results so far are refused at most for their bounds. */
  lemma MissionArgumentsAreTyped(w: World, k: Checks, plan: Plan, data: seq<Args>, f: Facts, raw: Args)
    requires ChecksOf(w, k) && |data| < |plan.steps| == |plan.bound| && Evidence(k, plan.steps, data, f)
    requires DistinctSteps(plan.steps) && RegistryMatches(w.names, plan, w.registryAt(|data|))
    requires Materialized(w.fold, plan.steps[|data|].bindings, ResultsOf(plan, data), f.selected, raw)
    requires var schema := plan.bound[|data|].tool.schema;
             Distinct(schema.properties) && forall p :: p in schema.properties ==> KnownKind(p.spec.kind)
    ensures var checked := Validate(w.norm, plan.bound[|data|].tool.schema, raw);
            checked.Err? ==> BoundsOnly(checked.error)
  {
    var n, registry := |data|, w.registryAt(|data|);
    var step := plan.steps[n];
    EvidenceIsDeclared(w, k, plan, data, f);
    MatchedRegistryFacts(w.names, plan, registry, n);
    assert StepFits(plan.steps, registry, step, registry[step.tool]);
    FeasibleFailsOnlyOnBounds(w.norm, w.fold, plan.steps, registry, step, registry[step.tool], ResultsOf(plan, data),
                              f.selected, raw);
  }
}
