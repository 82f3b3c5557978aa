/** Registry-bound composition plans (backend/composition_feasibility.py). */
module Feasibility {
  import opened PyText
  import opened Json
  import opened Validation
  import opened Tools

  datatype Transform = ExactCopy | SelectProject | IntegerToText | FixedTitle

  datatype Binding =
    | Literal(argument: string, value: Value)
    | FromResult(argument: string, source: string, path: seq<string>, transform: Transform)

  datatype Output = Output(path: seq<string>, valueType: string)

  datatype ProposedStep = ProposedStep(
    id: string, capability: string, tool: string, expectedRisk: Risk,
    bindings: seq<Binding>, prerequisites: seq<string>, outputs: seq<Output>)

  /** The authority-relevant facts of a registered tool; its schema stands for the schema digest. */
  datatype Fact = Fact(name: string, version: string, risk: Risk, schema: Schema, capabilities: set<string>,
                       dependencies: set<string>)

  datatype BoundStep = BoundStep(id: string, tool: Fact, prerequisites: seq<string>, bindings: seq<Binding>)

  datatype Plan = Plan(mission: string, steps: seq<ProposedStep>, bound: seq<BoundStep>)

  /** The mission's tools by position: four reads, then the write. The binding and the
      runtime below work for any five distinct names. */
  const BASELINE: seq<string> := ["projects.overview", "tasks.status_summary", "tasks.list", "memory.search",
                                  "tasks.create"]

  const AUTHORITY_NAMES: set<string> :=
    {"tool_name", "capability_id", "risk", "schema", "executor", "budget", "approval"}

  function TypeOf(v: Value): string {
    match v
    case Null => "null"
    case Bool(_) => "boolean"
    case Int(_) => "integer"
    case Num(_) => "number"
    case Str(_) => "string"
    case Arr(_) => "array"
    case Obj(_) => "object"
  }

  function KindName(k: Kind): string {
    match k
    case StringKind => "string"
    case IntegerKind => "integer"
    case BooleanKind => "boolean"
    case OtherKind(name) => name
  }

  predicate Compatible(source: string, destination: string) {
    source == destination || (source == "integer" && destination == "number")
  }

  function FindStep(steps: seq<ProposedStep>, id: string): Option<ProposedStep> {
    if steps == [] then None
    else if steps[|steps| - 1].id == id then Some(steps[|steps| - 1])
    else FindStep(steps[..|steps| - 1], id)
  }

  function FirstOutput(outputs: seq<Output>, path: seq<string>): Option<string> {
    if outputs == [] then None
    else if outputs[0].path == path then Some(outputs[0].valueType)
    else FirstOutput(outputs[1..], path)
  }

  /** The type a binding will deliver, judged from declarations alone. */
  function OutputType(steps: seq<ProposedStep>, b: Binding): Option<string> {
    match b
    case Literal(_, value) => Some(TypeOf(value))
    case FromResult(_, source, path, transform) =>
      match FindStep(steps, source)
      case None => None
      case Some(step) =>
        match FirstOutput(step.outputs, path)
        case None => None
        case Some(declared) =>
          match transform
          case ExactCopy => Some(declared)
          case SelectProject => if declared == "array" then Some("string") else None
          case _ => if declared == "integer" then Some("string") else None
  }

  function FindProperty(ps: seq<Property>, name: string): Option<Property> {
    if ps == [] then None
    else if ps[0].name == name then Some(ps[0])
    else FindProperty(ps[1..], name)
  }

  predicate BindingFits(steps: seq<ProposedStep>, schema: Schema, b: Binding) {
    var p, out := FindProperty(schema.properties, b.argument), OutputType(steps, b);
    && p.Some? && out.Some? && Compatible(out.value, KindName(p.value.spec.kind))
    && (b.FromResult? ==> b.argument !in AUTHORITY_NAMES)
  }

  /** No reason to refuse the step: risk, capability, dependencies, schema and bindings agree. */
  predicate StepFits(steps: seq<ProposedStep>, registry: Registry, step: ProposedStep, tool: Tool) {
    && tool.risk != HighRisk && tool.risk == step.expectedRisk
    && step.capability in tool.capabilities
    && tool.dependsOn <= registry.Keys
    && !tool.schema.additionalAllowed
    && (forall k :: k in tool.schema.required ==>
             exists i :: 0 <= i < |step.bindings| && step.bindings[i].argument == k)
    && (forall i :: 0 <= i < |step.bindings| ==> BindingFits(steps, tool.schema, step.bindings[i]))
  }

  function Bind(step: ProposedStep, tool: Tool): BoundStep {
    BoundStep(step.id, Fact(step.tool, tool.version, tool.risk, tool.schema, tool.capabilities, tool.dependsOn),
              step.prerequisites, step.bindings)
  }

  /** The reviewed mission: four reads and one final write, in this order. */
  predicate BaselineOrder(names: seq<string>, steps: seq<ProposedStep>) {
    && |steps| == |names| == 5
    && (forall i :: 0 <= i < |steps| ==> steps[i].tool == names[i])
    && steps[|steps| - 1].expectedRisk == InternalWrite
    && (forall i :: 0 <= i < |steps| - 1 ==> steps[i].expectedRisk == ReadOnly)
  }

  predicate Feasible(names: seq<string>, steps: seq<ProposedStep>, registry: Registry) {
    && BaselineOrder(names, steps)
    && (forall i :: 0 <= i < |steps| ==>
             steps[i].tool in registry && StepFits(steps, registry, steps[i], registry[steps[i].tool]))
  }

  /** Binds each step to the facts of its registered tool, or refuses the mission. */
  function Resolve(names: seq<string>, steps: seq<ProposedStep>, registry: Registry): Option<seq<BoundStep>> {
    if !Feasible(names, steps, registry) then None
    else Some(seq(|steps|, i requires 0 <= i < |steps| => Bind(steps[i], registry[steps[i].tool])))
  }

  /** Revalidation before each step: binding again must give this very plan. */
  predicate RegistryMatches(names: seq<string>, plan: Plan, registry: Registry) {
    Resolve(names, plan.steps, registry) == Some(plan.bound)
  }

  /** The resolving loop. */
  method BindFeasibility(names: seq<string>, steps: seq<ProposedStep>, registry: Registry)
    returns (bound: Option<seq<BoundStep>>)
    ensures bound == Resolve(names, steps, registry)
  {
    if !BaselineOrder(names, steps) {
      return None;
    }
    var acc: seq<BoundStep> := [];
    for i := 0 to |steps|
      invariant |acc| == i
      invariant forall j :: 0 <= j < i ==>
                  && steps[j].tool in registry && StepFits(steps, registry, steps[j], registry[steps[j].tool])
                  && acc[j] == Bind(steps[j], registry[steps[j].tool])
    {
      if steps[i].tool !in registry || !StepFits(steps, registry, steps[i], registry[steps[i].tool]) {
        return None;
      }
      acc := acc + [Bind(steps[i], registry[steps[i].tool])];
    }
    assert Feasible(names, steps, registry);
    assert acc == Resolve(names, steps, registry).value;
    bound := Some(acc);
  }

  /** Step `i` runs its baseline tool, registered at the bound version with the risk its position requires. */
  ghost predicate Matched(names: seq<string>, plan: Plan, registry: Registry, i: nat) {
    && |plan.bound| == 5 == |plan.steps| && i < 5 == |names|
    && plan.bound[i].tool.name == names[i] == plan.steps[i].tool && names[i] in registry
    && plan.bound[i].tool.version == registry[names[i]].version
    && plan.bound[i].tool.schema == registry[names[i]].schema
    && registry[names[i]].risk == (if i == 4 then InternalWrite else ReadOnly)
    && plan.bound[i].id == plan.steps[i].id
  }

  /** A matching registry fixes what each step may do. */
  lemma MatchedRegistryFacts(names: seq<string>, plan: Plan, registry: Registry, i: nat)
    requires RegistryMatches(names, plan, registry) && i < |plan.bound|
    ensures Matched(names, plan, registry, i)
  {
    assert plan.bound[i] == Bind(plan.steps[i], registry[plan.steps[i].tool]);
    assert StepFits(plan.steps, registry, plan.steps[i], registry[plan.steps[i].tool]);
  }

  /** The revalidation a mission performs before step `i`. */
  method CheckRegistry(names: seq<string>, plan: Plan, registry: Registry, i: nat) returns (ok: bool)
    requires i < |plan.bound|
    ensures ok <==> RegistryMatches(names, plan, registry)
    ensures ok ==> Matched(names, plan, registry, i)
  {
    var rebound := BindFeasibility(names, plan.steps, registry);
    ok := rebound == Some(plan.bound);
    if ok {
      MatchedRegistryFacts(names, plan, registry, i);
    }
  }

  ghost predicate DistinctNames(names: seq<string>) {
    |names| == 5 && forall i, j :: 0 <= i < j < 5 ==> names[i] != names[j]
  }

  lemma BaselineIsDistinct()
    ensures DistinctNames(BASELINE)
  {
    assert |BASELINE[0]| == 17 && |BASELINE[1]| == 20 && |BASELINE[2]| == 10;
    assert |BASELINE[3]| == 13 && |BASELINE[4]| == 12;
  }
}
