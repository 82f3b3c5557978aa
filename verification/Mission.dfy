/** The controlled five-step composition mission and its result record
    (backend/composition_runtime.py), run against arbitrary tools and registry changes. */
module Mission {
  import opened PyText
  import opened Json
  import opened Validation
  import opened Tools
  import opened ToolBudget
  import opened Feasibility
  import opened Printing

  /** The check for bounded text, passed around as a value by the record code. */
  type TextCheck = (string, nat) -> bool

  // ----- the environment ----------------------------------------------------------

  /** Why a mission stopped before or after a tool call, named in the record by a class name. */
  datatype Cause = RegistryChanged | ArgumentsUnbound | ArgumentsInvalid | ResultRejected

  datatype Execution = Returned(data: Args, run: string) | Raised(error: string)

  /** The baseline tool names, the registry seen at each step, the tools, the operation store
      and the library functions for folding, encoding, printing and naming exceptions. */
  datatype World = World(
    names: seq<string>,
    norm: Normaliser,
    fold: string -> string,
    encodedSize: Args -> nat,
    printedSize: Value -> nat,
    className: Cause -> string,
    registryAt: nat -> Registry,
    execute: (nat, string, Args) -> Execution,
    freeze: (string, string, Args) -> Result<string, string>)

  // ----- selecting the project --------------------------------------------------------

  /** A usable overview entry: a bounded name and a nonnegative open-task count. */
  predicate IsProject(v: Value) {
    && v.Obj? && "name" in v.fields && v.fields["name"].Str? && BoundedText(v.fields["name"].s, 100)
    && "open_tasks" in v.fields && v.fields["open_tasks"].Int? && v.fields["open_tasks"].n >= 0
  }

  function NameOf(v: Value): string
    requires IsProject(v)
  {
    Strip(v.fields["name"].s)
  }

  function OpenOf(v: Value): int
    requires IsProject(v)
  {
    v.fields["open_tasks"].n
  }

  datatype Candidate = Candidate(open: int, folded: string, name: string)

  function CandidateOf(fold: string -> string, v: Value): Candidate
    requires IsProject(v)
  {
    Candidate(OpenOf(v), fold(NameOf(v)), NameOf(v))
  }

  /** More open tasks win; ties go to the smaller folded name, then the smaller raw name. */
  predicate Beats(a: Candidate, b: Candidate) {
    || a.open > b.open
    || (a.open == b.open && (TextLess(a.folded, b.folded) || (a.folded == b.folded && TextLeq(a.name, b.name))))
  }

  predicate Selectable(projects: Value) {
    projects.Arr? && projects.items != [] && forall i :: 0 <= i < |projects.items| ==> IsProject(projects.items[i])
  }

  function Candidates(fold: string -> string, projects: Value): (cs: seq<Candidate>)
    requires Selectable(projects)
    ensures |cs| == |projects.items|
  {
    seq(|projects.items|, i requires 0 <= i < |projects.items| => CandidateOf(fold, projects.items[i]))
  }

  /** Candidate `i` is beaten by none. */
  ghost predicate IsBest(cs: seq<Candidate>, i: int) {
    0 <= i < |cs| && forall j :: 0 <= j < |cs| ==> Beats(cs[i], cs[j])
  }

  /** `name` is the name of the overview entry that no entry beats. */
  ghost predicate IsSelection(fold: string -> string, projects: Value, name: string) {
    && Selectable(projects)
    && exists i :: IsBest(Candidates(fold, projects), i) && Candidates(fold, projects)[i].name == name
  }

  lemma BeatsTotalPreorder(a: Candidate, b: Candidate, c: Candidate)
    ensures Beats(a, b) || Beats(b, a)
    ensures Beats(a, a)
    ensures Beats(a, b) && Beats(b, c) ==> Beats(a, c)
    ensures Beats(a, b) && Beats(b, a) ==> a.name == b.name
  {
    TextTrichotomy(a.folded, b.folded);
    TextTrichotomy(a.name, b.name);
    if TextLess(a.name, b.name) && TextLess(b.name, c.name) {
      TextLessTransitive(a.name, b.name, c.name);
    }
    if TextLess(a.folded, b.folded) && TextLess(b.folded, c.folded) {
      TextLessTransitive(a.folded, b.folded, c.folded);
    }
  }

  /** Entry `v` yields to the entry `best`: fewer open tasks, or as many and a name that is not earlier, first by
      its folded and then by its raw form. */
  ghost predicate Yields(fold: string -> string, v: Value, best: Value) {
    && IsProject(v) && IsProject(best) && OpenOf(v) <= OpenOf(best)
    && (OpenOf(v) == OpenOf(best) ==>
          && !TextLess(fold(NameOf(v)), fold(NameOf(best)))
          && (fold(NameOf(v)) == fold(NameOf(best)) ==> !TextLess(NameOf(v), NameOf(best))))
  }

  /** The selected name belongs to an entry that every entry yields to. */
  lemma SelectionIsMost(fold: string -> string, projects: Value, name: string) returns (i: nat)
    requires IsSelection(fold, projects, name)
    ensures i < |projects.items| && IsProject(projects.items[i]) && NameOf(projects.items[i]) == name
    ensures forall v :: v in projects.items ==> Yields(fold, v, projects.items[i])
  {
    var cs := Candidates(fold, projects);
    var k :| IsBest(cs, k) && cs[k].name == name;
    i := k;
    forall v | v in projects.items
      ensures Yields(fold, v, projects.items[i])
    {
      var j :| 0 <= j < |projects.items| && projects.items[j] == v;
      assert Beats(cs[i], cs[j]);
      TextTrichotomy(cs[i].folded, cs[j].folded);
      TextTrichotomy(cs[i].name, cs[j].name);
    }
  }

  /** The selection is unique, so the rule determines one project. */
  lemma SelectionUnique(fold: string -> string, projects: Value, a: string, b: string)
    requires IsSelection(fold, projects, a) && IsSelection(fold, projects, b)
    ensures a == b
  {
    var cs := Candidates(fold, projects);
    var i :| IsBest(cs, i) && cs[i].name == a;
    var j :| IsBest(cs, j) && cs[j].name == b;
    BeatsTotalPreorder(cs[i], cs[j], cs[i]);
  }

  /** A new candidate either loses to the best so far or becomes the best. */
  lemma NextBest(cs: seq<Candidate>, best: nat, i: nat)
    requires i < |cs| && IsBest(cs[..i], best)
    ensures IsBest(cs[..i + 1], if Beats(cs[best], cs[i]) then best else i)
  {
    BeatsTotalPreorder(cs[best], cs[i], cs[best]);
    BeatsTotalPreorder(cs[i], cs[i], cs[i]);
    var next := if Beats(cs[best], cs[i]) then best else i;
    var now := cs[..i + 1];
    forall j | 0 <= j < |now| ensures Beats(now[next], now[j]) {
      if j < i {
        assert cs[..i][j] == now[j];
        BeatsTotalPreorder(cs[next], cs[best], cs[j]);
      }
    }
  }

  method BestCandidate(cs: seq<Candidate>) returns (best: nat)
    requires cs != []
    ensures IsBest(cs, best)
  {
    best := 0;
    BeatsTotalPreorder(cs[0], cs[0], cs[0]);
    for i := 1 to |cs|
      invariant IsBest(cs[..i], best)
    {
      NextBest(cs, best, i);
      if !Beats(cs[best], cs[i]) {
        best := i;
      }
    }
    assert cs[..|cs|] == cs;
  }

  method ChooseProject(fold: string -> string, projects: Value) returns (r: Option<string>)
    ensures r.Some? <==> Selectable(projects)
    ensures r.Some? ==> IsSelection(fold, projects, r.value) && BoundedText(r.value, 100)
  {
    if !projects.Arr? || projects.items == [] {
      return None;
    }
    var ps := projects.items;
    for i := 0 to |ps|
      invariant forall j :: 0 <= j < i ==> IsProject(ps[j])
    {
      if !IsProject(ps[i]) {
        return None;
      }
    }
    var cs := Candidates(fold, projects);
    var best := BestCandidate(cs);
    StrippedStaysBounded(ps[best].fields["name"].s, 100);
    r := Some(cs[best].name);
  }

  // ----- materialising arguments ---------------------------------------------------------

  function Extract(v: Value, path: seq<string>): Option<Value>
    decreases |path|
  {
    if path == [] then Some(v)
    else if !v.Obj? || path[0] !in v.fields then None
    else Extract(v.fields[path[0]], path[1..])
  }

  function Title(selected: string, n: int): string {
    "Follow up on " + selected + ": review " + IntText(n) + " open tasks"
  }

  predicate CanTransform(t: Transform, v: Value, selected: string) {
    match t
    case ExactCopy => true
    case SelectProject => Selectable(v)
    case IntegerToText => v.Int?
    case FixedTitle => v.Int? && v.n >= 0 && selected != "" && BoundedText(Title(selected, v.n), 500)
  }

  ghost predicate Transforms(fold: string -> string, t: Transform, v: Value, selected: string, out: Value) {
    && CanTransform(t, v, selected)
    && match t
       case ExactCopy => out == v
       case SelectProject => out.Str? && IsSelection(fold, v, out.s)
       case IntegerToText => out == Str(IntText(v.n))
       case FixedTitle => out == Str(Strip(Title(selected, v.n)))
  }

  /** What each transform means: a copy, the selected project, a text that reads as the number, or the title that
      names project and number. */
  lemma TransformsMean(fold: string -> string, t: Transform, v: Value, selected: string, out: Value)
    requires Transforms(fold, t, v, selected, out)
    ensures t.ExactCopy? ==> out == v
    ensures t.SelectProject? ==> out.Str? && IsSelection(fold, v, out.s)
    ensures t.IntegerToText? ==> v.Int? && out.Str? && ReadInt(out.s) == v.n
    ensures t.FixedTitle? ==>
              && v.Int? && v.n >= 0 && selected != ""
              && exists number :: ReadInt(number) == v.n && out ==
                   Str(Strip("Follow up on " + selected + ": review " + number + " open tasks"))
  {
    if v.Int? {
      IntTextReads(v.n);
    }
  }

  predicate Bindable(b: Binding, results: Results, selected: string) {
    b.FromResult? ==>
      && b.source in results
      && var v := Extract(Obj(results[b.source]), b.path); v.Some? && CanTransform(b.transform, v.value, selected)
  }

  /** The value a binding delivers. */
  ghost predicate Binds(fold: string -> string, b: Binding, results: Results, selected: string, out: Value) {
    match b
    case Literal(_, value) => out == value
    case FromResult(_, source, path, transform) =>
      && source in results
      && var v := Extract(Obj(results[source]), path); v.Some? && Transforms(fold, transform, v.value, selected, out)
  }

  ghost predicate Materialized(fold: string -> string, bs: seq<Binding>, results: Results, selected: string,
                               args: Args) {
    && args.Keys == (set i | 0 <= i < |bs| :: bs[i].argument)
    && (forall i :: 0 <= i < |bs| ==>
             bs[i].argument in args && Binds(fold, bs[i], results, selected, args[bs[i].argument]))
  }

  /** A binding delivers one value. */
  lemma BindsUnique(fold: string -> string, b: Binding, results: Results, selected: string, x: Value, y: Value)
    requires Binds(fold, b, results, selected, x) && Binds(fold, b, results, selected, y)
    ensures x == y
  {
    if b.FromResult? && b.transform.SelectProject? {
      SelectionUnique(fold, Extract(Obj(results[b.source]), b.path).value, x.s, y.s);
    }
  }

  lemma BindsOnlyBindable(fold: string -> string, b: Binding, results: Results, selected: string, x: Value)
    requires Binds(fold, b, results, selected, x)
    ensures Bindable(b, results, selected)
  {
  }

  /** The arguments of a step are determined by the results so far. */
  lemma MaterializedUnique(fold: string -> string, bs: seq<Binding>, results: Results, selected: string, x: Args,
                           y: Args)
    requires Materialized(fold, bs, results, selected, x) && Materialized(fold, bs, results, selected, y)
    ensures x == y
  {
    forall key | key in x
      ensures x[key] == y[key]
    {
      var i :| 0 <= i < |bs| && bs[i].argument == key;
      BindsUnique(fold, bs[i], results, selected, x[key], y[key]);
    }
  }

  lemma MaterializedOnlyBindable(fold: string -> string, bs: seq<Binding>, results: Results, selected: string, x: Args)
    requires Materialized(fold, bs, results, selected, x)
    ensures forall i :: 0 <= i < |bs| ==> Bindable(bs[i], results, selected)
  {
    forall i | 0 <= i < |bs| ensures Bindable(bs[i], results, selected) {
      BindsOnlyBindable(fold, bs[i], results, selected, x[bs[i].argument]);
    }
  }

  method BindOne(fold: string -> string, b: Binding, results: Results, selected: string) returns (r: Option<Value>)
    ensures r.Some? <==> Bindable(b, results, selected)
    ensures r.Some? ==> Binds(fold, b, results, selected, r.value)
  {
    match b
    case Literal(_, value) => r := Some(value);
    case FromResult(_, source, path, transform) =>
      if source !in results {
        return None;
      }
      var v := Extract(Obj(results[source]), path);
      if v.None? || !CanTransform(transform, v.value, selected) {
        return None;
      }
      match transform
      case ExactCopy => r := v;
      case IntegerToText => r := Some(Str(IntText(v.value.n)));
      case FixedTitle => r := Some(Str(Strip(Title(selected, v.value.n))));
      case SelectProject =>
        var name := ChooseProject(fold, v.value);
        r := if name.Some? then Some(Str(name.value)) else None;
  }

  method MaterializeArguments(fold: string -> string, bs: seq<Binding>, results: Results, selected: string)
    returns (r: Option<Args>)
    requires forall i, j :: 0 <= i < j < |bs| ==> bs[i].argument != bs[j].argument
    ensures r.Some? <==> forall i :: 0 <= i < |bs| ==> Bindable(bs[i], results, selected)
    ensures r.Some? ==> Materialized(fold, bs, results, selected, r.value)
  {
    var args: Args := map[];
    for i := 0 to |bs|
      invariant forall j :: 0 <= j < i ==> Bindable(bs[j], results, selected)
      invariant args.Keys == (set j | 0 <= j < i :: bs[j].argument)
      invariant forall j :: 0 <= j < i ==>
                  bs[j].argument in args && Binds(fold, bs[j], results, selected, args[bs[j].argument])
    {
      var value := BindOne(fold, bs[i], results, selected);
      if value.None? {
        return None;
      }
      args := args[bs[i].argument := value.value];
    }
    r := Some(args);
  }

  // ----- judging results --------------------------------------------------------------------

  /** What the mission has learnt so far; a count is whatever JSON value the tool reported. */
  datatype Facts = Facts(selected: string, open: Value, listed: Value, memories: Value)

  const NOTHING: Facts := Facts("", Int(-1), Int(-1), Int(-1))

  function Get(m: Args, k: string): Value {
    if k in m then m[k] else Null
  }

  predicate DeclaredOutputsPresent(step: ProposedStep, data: Args) {
    forall i :: 0 <= i < |step.outputs| ==>
      var v := Extract(Obj(data), step.outputs[i].path); v.Some? && TypeOf(v.value) == step.outputs[i].valueType
  }

  /** Length of a sized value; other values have none. */
  function Length(v: Value): Option<nat> {
    match v
    case Arr(items) => Some(|items|)
    case Obj(fields) => Some(|fields|)
    case Str(s) => Some(|s|)
    case _ => None
  }

  /** Iterating an object or a text yields texts, which are not tasks. */
  predicate AllOpenTasks(tasks: Value, project: string) {
    match tasks
    case Arr(items) =>
      forall i :: 0 <= i < |items| ==>
        && items[i].Obj? && Get(items[i].fields, "status") == Str("open")
        && Get(items[i].fields, "project") == Str(project)
    case _ => Length(tasks) == Some(0)
  }

  ghost predicate OverviewAccepted(fold: string -> string, data: Args, selected: string) {
    "projects" in data && Get(data, "truncated") == Bool(false) && IsSelection(fold, data["projects"], selected)
  }

  predicate SummaryAccepted(data: Args, selected: string, open: Value) {
    && Get(data, "project") == Str(selected)
    && "counts" in data && data["counts"].Obj?
    && "open" in data["counts"].fields && data["counts"].fields["open"] == open
    && open.Int? && open.n >= 0
  }

  predicate ListAccepted(data: Args, selected: string, open: Value, listed: Value) {
    && "tasks" in data && "count" in data && data["count"] == listed
    && listed.Int? && Length(data["tasks"]) == Some(listed.n) && listed == open
    && AllOpenTasks(data["tasks"], selected)
  }

  predicate SearchAccepted(data: Args, selected: string, memories: Value) {
    && "memories" in data && "count" in data && data["count"] == memories
    && memories.Int? && Length(data["memories"]) == Some(memories.n) && Get(data, "query") == Str(selected)
  }

  const MAX_RESULT_BYTES := 256 * 1024

  /** The `i`-th read returned `data`, was accepted, and moved what is known from `f` to `g`. */
  ghost predicate Learns(fold: string -> string, i: nat, data: Args, f: Facts, g: Facts) {
    match i
    case 0 => g == f.(selected := g.selected) && OverviewAccepted(fold, data, g.selected) && g.selected != ""
    case 1 => g == f.(open := g.open) && SummaryAccepted(data, f.selected, g.open)
    case 2 => g == f.(listed := g.listed) && ListAccepted(data, f.selected, f.open, g.listed)
    case _ => g == f.(memories := g.memories) && SearchAccepted(data, f.selected, g.memories)
  }

  /** The `i`-th read's data fits no continuation of what was known. */
  ghost predicate Contradicts(w: World, step: ProposedStep, i: nat, data: Args, f: Facts) {
    forall g :: !Judged(w, step, i, data, f, g)
  }

  predicate ResultAdmissible(w: World, step: ProposedStep, data: Args) {
    Serializable(Obj(data)) && w.encodedSize(data) <= MAX_RESULT_BYTES && DeclaredOutputsPresent(step, data)
  }

  /** The result is admissible and teaches `g`. */
  ghost predicate Judged(w: World, step: ProposedStep, i: nat, data: Args, f: Facts, g: Facts) {
    ResultAdmissible(w, step, data) && Learns(w.fold, i, data, f, g)
  }

  /** Whether the `i`-th read's count is taken over before it is checked. */
  predicate CountRead(i: nat, data: Args, selected: string) {
    match i
    case 0 => false
    case 1 =>
      && Get(data, "project") == Str(selected)
      && "counts" in data && data["counts"].Obj? && "open" in data["counts"].fields
    case 2 => "tasks" in data && "count" in data
    case _ => "memories" in data && "count" in data
  }

  /** What the mission holds once the `i`-th read's data has been looked at, accepted or not. */
  function Stored(w: World, step: ProposedStep, i: nat, data: Args, f: Facts): Facts {
    if !ResultAdmissible(w, step, data) || !CountRead(i, data, f.selected) then f
    else match i
      case 1 => f.(open := data["counts"].fields["open"])
      case 2 => f.(listed := data["count"])
      case _ => f.(memories := data["count"])
  }

  /** The cross-checks after a successful read. A refused result may still have updated a count. */
  method JudgeResult(w: World, step: ProposedStep, tool: string, i: nat, data: Args, before: Facts)
    returns (ok: bool, after: Facts)
    requires DistinctNames(w.names) && i < 4 && tool == w.names[i]
    ensures ok ==> Judged(w, step, i, data, before, after)
    ensures !ok ==> Contradicts(w, step, i, data, before) && after == Stored(w, step, i, data, before)
    ensures after.selected == before.selected || (after.selected != "" && BoundedText(after.selected, 100))
  {
    after := before;
    if !ResultAdmissible(w, step, data) {
      return false, before;
    }
    if tool == w.names[0] {
      if Get(data, "truncated") != Bool(false) || "projects" !in data {
        return false, before;
      }
      var chosen := ChooseProject(w.fold, data["projects"]);
      if chosen.None? {
        return false, before;
      }
      BlankStripsToEmpty(chosen.value);
      after := before.(selected := chosen.value);
    } else if tool == w.names[1] {
      if Get(data, "project") != Str(before.selected) {
        return false, before;
      }
      if "counts" !in data || !data["counts"].Obj? || "open" !in data["counts"].fields {
        return false, before;
      }
      after := before.(open := data["counts"].fields["open"]);
      if !after.open.Int? || after.open.n < 0 {
        return false, after;
      }
    } else if tool == w.names[2] {
      if "tasks" !in data || "count" !in data {
        return false, before;
      }
      after := before.(listed := data["count"]);
      if !ListAccepted(data, before.selected, before.open, after.listed) {
        return false, after;
      }
    } else {
      if "memories" !in data || "count" !in data {
        return false, before;
      }
      after := before.(memories := data["count"]);
      if !SearchAccepted(data, before.selected, after.memories) {
        return false, after;
      }
    }
    ok := true;
  }

  // ----- the result record and its constructor ------------------------------------------------

  datatype StepStatus = StepSucceeded | StepPending | StepBlocked | StepFailed | NotAttempted

  /** Audit metadata of one step; the arguments and result data stand for their digests. */
  datatype StepRun = StepRun(
    id: string, tool: string, version: string, status: StepStatus,
    argsDigest: Option<Args>, signature: Option<Signature>, run: string, resultDigest: Option<Args>, performed: bool)

  datatype RunStatus = ApprovalPending | Blocked | Failed

  datatype PendingOperation = PendingOperation(id: string, status: string, tool: string, version: string,
                                               argsDigest: Args)

  datatype MissionRun = MissionRun(
    plan: Plan, status: RunStatus, steps: seq<StepRun>, processed: int, executed: int, signatures: seq<Signature>,
    facts: Facts, pending: Option<PendingOperation>, failure: string)

  predicate StepRunAccepted(fits: TextCheck, r: StepRun) {
    && fits(r.id, 128) && fits(r.tool, 128) && fits(r.version, 128)
    && (r.run != "" ==> fits(r.run, 128))
    && (r.status == StepSucceeded ==> r.performed)
    && (r.status in {StepPending, StepBlocked, NotAttempted} ==> !r.performed)
  }

  function RecordedSignatures(steps: seq<StepRun>): seq<Signature> {
    if steps == [] then []
    else
      var last := steps[|steps| - 1];
      RecordedSignatures(steps[..|steps| - 1]) + (if last.signature.Some? then [last.signature.value] else [])
  }

  function PerformedCount(steps: seq<StepRun>): nat {
    if steps == [] then 0
    else PerformedCount(steps[..|steps| - 1]) + (if steps[|steps| - 1].performed then 1 else 0)
  }

  predicate Mirrors(bound: BoundStep, r: StepRun) {
    bound.id == r.id && bound.tool.name == r.tool && bound.tool.version == r.version
  }

  /** Every step record is well formed and mirrors its bound step. */
  predicate StepsAccepted(fits: TextCheck, plan: Plan, steps: seq<StepRun>)
    requires |steps| <= |plan.bound|
  {
    steps != [] ==>
      var n := |steps| - 1;
      StepsAccepted(fits, plan, steps[..n]) && StepRunAccepted(fits, steps[n]) && Mirrors(plan.bound[n], steps[n])
  }

  predicate SomeFailed(steps: seq<StepRun>) {
    exists i :: 0 <= i < |steps| && steps[i].status == StepFailed
  }

  /** What the record's constructor insists on before it prints the summary. */
  predicate Consistent(fits: TextCheck, write: string, m: MissionRun) {
    && |m.steps| == |m.plan.bound|
    && StepsAccepted(fits, m.plan, m.steps)
    && (m.status != ApprovalPending ==>
          m.status == if m.failure != "" && SomeFailed(m.steps) then Failed else Blocked)
    && (m.status == ApprovalPending ==>
          && |m.steps| > 0 && (forall i :: 0 <= i < |m.steps| - 1 ==> m.steps[i].status == StepSucceeded)
          && m.steps[|m.steps| - 1].status == StepPending
          && m.pending.Some? && m.pending.value.id != "" && m.pending.value.status == "pending"
          && m.pending.value.tool == write)
    && (m.status != ApprovalPending ==> m.pending.None?)
    && m.processed == |m.signatures| && m.signatures == RecordedSignatures(m.steps)
    && m.executed == PerformedCount(m.steps)
    && m.executed <= 4 && m.processed <= 5
    && (m.status == ApprovalPending ==> m.processed == 5 && m.executed == 4)
    && (m.facts.selected != "" ==> fits(m.facts.selected, 100))
    && (m.failure != "" ==> fits(m.failure, 200))
  }

  // ----- the printed summary ------------------------------------------------------------------

  const MAX_SUMMARY_BYTES := 128 * 1024

  function StatusText(s: RunStatus): string {
    match s
    case ApprovalPending => "approval_pending"
    case Blocked => "blocked"
    case Failed => "failed"
  }

  function StepStatusText(s: StepStatus): string {
    match s
    case StepSucceeded => "succeeded"
    case StepPending => "pending"
    case StepBlocked => "blocked"
    case StepFailed => "failed"
    case NotAttempted => "not_attempted"
  }

  /** A digest has 64 characters; an absent one is printed as the empty text. */
  function DigestPrint(present: bool): nat {
    if present then 66 else 2
  }

  /** One step: the nine keys with indentation and separators, and their values. */
  function StepPrint(r: StepRun): nat {
    223 + DigestPrint(r.argsDigest.Some?) + DigestPrint(r.signature.Some?) + DigestPrint(r.resultDigest.Some?)
    + (if r.performed then 4 else 5) + TextPrint(r.run) + TextPrint(StepStatusText(r.status))
    + TextPrint(r.id) + TextPrint(r.tool) + TextPrint(r.version)
  }

  function StepsPrint(steps: seq<StepRun>): nat {
    if steps == [] then 0 else StepsPrint(steps[..|steps| - 1]) + StepPrint(steps[|steps| - 1])
  }

  function PendingPrint(op: Option<PendingOperation>): nat {
    match op
    case None => DigestPrint(false) + 8
    case Some(p) => DigestPrint(true) + TextPrint(p.id) + TextPrint(p.status) + TextPrint(p.tool) + TextPrint(p.version)
  }

  function CountsPrint(library: Value -> nat, f: Facts): nat {
    ValuePrint(library, f.open) + ValuePrint(library, f.listed) + ValuePrint(library, f.memories)
  }

  /** The bytes of the indented summary: fixed keys, texts, counts, the two lists and the closing line break. */
  function SummaryPrint(library: Value -> nat, m: MissionRun): nat {
    620 + TextPrint(m.plan.mission) + TextPrint(m.failure) + TextPrint(m.facts.selected)
    + TextPrint(StatusText(m.status)) + |IntText(m.executed)| + |IntText(m.processed)|
    + CountsPrint(library, m.facts) + PendingPrint(m.pending)
    + (if m.signatures == [] then 0 else 2 + 72 * |m.signatures|)
    + (if m.steps == [] then 0 else 2 + StepsPrint(m.steps))
  }

  predicate Printed(w: World, m: MissionRun) {
    SummaryPrint(w.printedSize, m) <= MAX_SUMMARY_BYTES
  }

  /** Everything the record's constructor insists on. */
  predicate Accepted(w: World, fits: TextCheck, write: string, m: MissionRun) {
    Consistent(fits, write, m) && Printed(w, m)
  }

  // ----- records of missions that stop early ---------------------------------------------------

  function Skipped(b: BoundStep): StepRun {
    StepRun(b.id, b.tool.name, b.tool.version, NotAttempted, None, None, "", None, false)
  }

  function Padded(plan: Plan, steps: seq<StepRun>): (r: seq<StepRun>)
    requires |steps| <= |plan.bound|
    ensures |r| == |plan.bound|
    ensures forall i :: 0 <= i < |steps| ==> r[i] == steps[i]
    ensures forall i :: |steps| <= i < |r| ==> r[i] == Skipped(plan.bound[i])
  {
    steps + seq(|plan.bound| - |steps|, i requires 0 <= i < |plan.bound| - |steps| => Skipped(plan.bound[|steps| + i]))
  }

  /** Unattempted steps add neither signatures nor executions. */
  lemma {:induction false} SkippedAddNothing(steps: seq<StepRun>, n: nat)
    requires n <= |steps| && forall i :: n <= i < |steps| ==> steps[i].signature.None? && !steps[i].performed
    ensures RecordedSignatures(steps) == RecordedSignatures(steps[..n])
    ensures PerformedCount(steps) == PerformedCount(steps[..n])
    decreases |steps|
  {
    if n == |steps| {
      assert steps[..n] == steps;
    } else {
      SkippedAddNothing(steps[..|steps| - 1], n);
      assert steps[..|steps| - 1][..n] == steps[..n];
    }
  }

  /** What the loop carries from step to step. */
  datatype Progress = Progress(steps: seq<StepRun>, signatures: seq<Signature>, facts: Facts, trace: Trace)

  function FailedRun(plan: Plan, p: Progress, processed: int, executed: int, failure: string, failed: bool): MissionRun
    requires |p.steps| <= |plan.bound|
  {
    MissionRun(plan, if failed then Failed else Blocked, Padded(plan, p.steps), processed, executed, p.signatures,
               p.facts, None, failure)
  }

  /** The identities in a plan are bounded text. */
  ghost predicate PlanTextBounded(fits: TextCheck, plan: Plan) {
    forall i :: 0 <= i < |plan.bound| ==> StepRunAccepted(fits, Skipped(plan.bound[i]))
  }

  ghost predicate FactsBounded(fits: TextCheck, f: Facts) {
    f.selected != "" ==> fits(f.selected, 100)
  }

  /** The steps reported so far agree with the signatures and keep within the budget. */
  ghost predicate Booked(fits: TextCheck, plan: Plan, steps: seq<StepRun>, signatures: seq<Signature>) {
    && |steps| <= |plan.bound| && StepsAccepted(fits, plan, steps)
    && signatures == RecordedSignatures(steps) && |signatures| <= 5 && PerformedCount(steps) <= 4
  }

  lemma {:induction false} PaddingAccepted(fits: TextCheck, plan: Plan, all: seq<StepRun>, n: nat)
    requires PlanTextBounded(fits, plan) && n <= |all| <= |plan.bound| && StepsAccepted(fits, plan, all[..n])
    requires forall i :: n <= i < |all| ==> all[i] == Skipped(plan.bound[i])
    ensures StepsAccepted(fits, plan, all)
    decreases |all|
  {
    if n == |all| {
      assert all[..n] == all;
    } else {
      var m := |all| - 1;
      assert all[..m][..n] == all[..n];
      PaddingAccepted(fits, plan, all[..m], n);
      assert StepRunAccepted(fits, Skipped(plan.bound[m]));
    }
  }

  lemma PaddedAccepted(fits: TextCheck, plan: Plan, steps: seq<StepRun>)
    requires PlanTextBounded(fits, plan) && |steps| <= |plan.bound| && StepsAccepted(fits, plan, steps)
    ensures var all := Padded(plan, steps);
            && StepsAccepted(fits, plan, all)
            && RecordedSignatures(all) == RecordedSignatures(steps) && PerformedCount(all) == PerformedCount(steps)
  {
    var all := Padded(plan, steps);
    assert all[..|steps|] == steps;
    SkippedAddNothing(all, |steps|);
    PaddingAccepted(fits, plan, all, |steps|);
  }

  lemma PaddedFailed(plan: Plan, steps: seq<StepRun>)
    requires |steps| <= |plan.bound|
    ensures SomeFailed(Padded(plan, steps)) <==> SomeFailed(steps)
  {
    var all := Padded(plan, steps);
    if i :| 0 <= i < |steps| && steps[i].status == StepFailed {
      assert all[i].status == StepFailed;
    }
  }

  lemma FailedRunConsistent(fits: TextCheck, write: string, plan: Plan, p: Progress, failure: string, failed: bool)
    requires PlanTextBounded(fits, plan) && FactsBounded(fits, p.facts) && Booked(fits, plan, p.steps, p.signatures)
    requires fits(failure, 200) && failure != ""
    requires failed <==> SomeFailed(p.steps)
    ensures Consistent(fits, write, FailedRun(plan, p, |p.signatures|, PerformedCount(p.steps), failure, failed))
  {
    PaddedAccepted(fits, plan, p.steps);
    PaddedFailed(plan, p.steps);
  }

  // ----- what one step does ---------------------------------------------------------------------

  /** What actually happened: reads executed with the data they returned, and writes frozen. */
  datatype Trace = Trace(executed: seq<Signature>, data: seq<Args>, frozen: seq<Signature>)

  type Results = map<string, Args>

  /** The checks of the loop as values, so that their definitions are consulted only where they matter. */
  datatype Checks = Checks(
    fits: TextCheck,
    judged: (ProposedStep, nat, Args, Facts, Facts) -> bool,
    stored: (ProposedStep, nat, Args, Facts) -> Facts,
    calls: (Registry, ProposedStep, Results, string, Args) -> bool,
    matches: (Plan, Registry) -> bool)

  ghost predicate FitsMeans(k: Checks, s: string, limit: nat) {
    k.fits(s, limit) <==> BoundedText(s, limit)
  }

  ghost predicate JudgedMeans(w: World, k: Checks, step: ProposedStep, i: nat, data: Args, f: Facts, g: Facts) {
    k.judged(step, i, data, f, g) <==> Judged(w, step, i, data, f, g)
  }

  ghost predicate StoredMeans(w: World, k: Checks, step: ProposedStep, i: nat, data: Args, f: Facts) {
    k.stored(step, i, data, f) == Stored(w, step, i, data, f)
  }

  ghost predicate CallsMeans(w: World, k: Checks, r: Registry, step: ProposedStep, results: Results, selected: string,
                             args: Args) {
    k.calls(r, step, results, selected, args) <==> CallArguments(w, r, step, results, selected, args)
  }

  ghost predicate MatchesMeans(w: World, k: Checks, plan: Plan, r: Registry) {
    k.matches(plan, r) <==> RegistryMatches(w.names, plan, r)
  }

  /** `k` names exactly the checks of this module. */
  ghost predicate ChecksOf(w: World, k: Checks) {
    && (forall s, n :: FitsMeans(k, s, n))
    && (forall step, i, data, f, g :: JudgedMeans(w, k, step, i, data, f, g))
    && (forall step, i, data, f :: StoredMeans(w, k, step, i, data, f))
    && (forall r, step, results, selected, args :: CallsMeans(w, k, r, step, results, selected, args))
    && (forall plan, r :: MatchesMeans(w, k, plan, r))
  }

  /** Tool names are distinct; exception class names and identifiers are short nonempty text. */
  ghost predicate TextsSane(w: World, fits: TextCheck) {
    && DistinctNames(w.names)
    && (forall c :: fits(w.className(c), 200) && w.className(c) != "")
    && (forall i, t, a :: w.execute(i, t, a).Raised? ==>
             fits(w.execute(i, t, a).error, 200) && w.execute(i, t, a).error != "")
    && (forall i, t, a :: w.execute(i, t, a).Returned? && w.execute(i, t, a).run != "" ==>
             fits(w.execute(i, t, a).run, 128))
    && (forall t, v, a :: match w.freeze(t, v, a) case Ok(id) => id != "" case Err(e) => fits(e, 200) && e != "")
  }

  ghost predicate Sane(w: World, k: Checks) {
    ChecksOf(w, k) && TextsSane(w, k.fits)
  }

  /** Constructor facts of a plan: bound step by step, one binding per argument. */
  ghost predicate PlanConstructed(fits: TextCheck, plan: Plan) {
    && 1 <= |plan.steps| == |plan.bound| && PlanTextBounded(fits, plan)
    && (forall i :: 0 <= i < |plan.steps| ==> OneBindingEach(plan.steps[i].bindings))
  }

  ghost predicate OneBindingEach(bs: seq<Binding>) {
    forall a, b :: 0 <= a < b < |bs| ==> bs[a].argument != bs[b].argument
  }

  /** The results later bindings may read. */
  function ResultsOf(plan: Plan, data: seq<Args>): Results
    requires |data| <= |plan.steps|
  {
    if data == [] then map[]
    else ResultsOf(plan, data[..|data| - 1])[plan.steps[|data| - 1].id := data[|data| - 1]]
  }

  /** The arguments of a step: bound from earlier results, then validated. */
  ghost predicate CallArguments(w: World, registry: Registry, step: ProposedStep, results: Results, selected: string,
                                args: Args) {
    && step.tool in registry
    && exists raw :: Materialized(w.fold, step.bindings, results, selected, raw)
                     && Validate(w.norm, registry[step.tool].schema, raw) == Ok(args)
  }

  lemma CallNeedsBindings(w: World, registry: Registry, step: ProposedStep, results: Results, selected: string,
                          args: Args)
    requires CallArguments(w, registry, step, results, selected, args)
    ensures AllBindable(step.bindings, results, selected)
  {
    var raw :| Materialized(w.fold, step.bindings, results, selected, raw)
               && Validate(w.norm, registry[step.tool].schema, raw) == Ok(args);
    MaterializedOnlyBindable(w.fold, step.bindings, results, selected, raw);
  }

  lemma CallNeedsValidation(w: World, registry: Registry, step: ProposedStep, results: Results, selected: string,
                            raw: Args, args: Args)
    requires CallArguments(w, registry, step, results, selected, args)
    requires Materialized(w.fold, step.bindings, results, selected, raw)
    ensures Validate(w.norm, registry[step.tool].schema, raw) == Ok(args)
  {
    var other :| Materialized(w.fold, step.bindings, results, selected, other)
                 && Validate(w.norm, registry[step.tool].schema, other) == Ok(args);
    MaterializedUnique(w.fold, step.bindings, results, selected, raw, other);
  }

  /** A step has one set of arguments. */
  lemma CallsUnique(w: World, k: Checks, registry: Registry, step: ProposedStep, results: Results, selected: string,
                    a: Args, b: Args)
    requires ChecksOf(w, k)
    requires k.calls(registry, step, results, selected, a) && k.calls(registry, step, results, selected, b)
    ensures a == b
  {
    assert CallsMeans(w, k, registry, step, results, selected, a);
    assert CallsMeans(w, k, registry, step, results, selected, b);
    var raw :| Materialized(w.fold, step.bindings, results, selected, raw)
               && Validate(w.norm, registry[step.tool].schema, raw) == Ok(a);
    CallNeedsValidation(w, registry, step, results, selected, raw, b);
  }

  /** A read teaches one thing. */
  lemma JudgedUnique(w: World, k: Checks, step: ProposedStep, i: nat, data: Args, f: Facts, g: Facts, h: Facts)
    requires ChecksOf(w, k) && k.judged(step, i, data, f, g) && k.judged(step, i, data, f, h)
    ensures g == h
  {
    assert JudgedMeans(w, k, step, i, data, f, g);
    assert JudgedMeans(w, k, step, i, data, f, h);
    if i == 0 {
      SelectionUnique(w.fold, data["projects"], g.selected, h.selected);
    }
  }

  /** No arguments exist that the step could be called with. */
  ghost predicate Uncallable(k: Checks, registry: Registry, step: ProposedStep, results: Results, selected: string) {
    forall args :: !k.calls(registry, step, results, selected, args)
  }

  predicate AllBindable(bs: seq<Binding>, results: Results, selected: string) {
    forall i :: 0 <= i < |bs| ==> Bindable(bs[i], results, selected)
  }

  /** The arguments of step `i`, or why the mission stops before it. */
  ghost function Preparation(w: World, k: Checks, plan: Plan, i: nat, results: Results,
                             selected: string): Result<Args, Cause>
    requires i < |plan.steps|
  {
    var registry, step := w.registryAt(i), plan.steps[i];
    if !k.matches(plan, registry) then Err(RegistryChanged)
    else if Uncallable(k, registry, step, results, selected) then
      Err(if AllBindable(step.bindings, results, selected) then ArgumentsInvalid else ArgumentsUnbound)
    else
      var args :| k.calls(registry, step, results, selected, args);
      Ok(args)
  }

  /** The result of a read is inadmissible or contradicts what was known. */
  ghost predicate Refused(k: Checks, plan: Plan, i: nat, data: Args, known: Facts) {
    i < |plan.steps| && forall g :: !k.judged(plan.steps[i], i, data, known, g)
  }

  function Record(bound: BoundStep, status: StepStatus, sig: Signature, run: string, data: Option<Args>): StepRun {
    StepRun(bound.id, bound.tool.name, bound.tool.version, status, Some(sig.args), Some(sig), run, data, data.Some?)
  }

  function AfterCall(p: Progress, r: StepRun, sig: Signature, facts: Facts, data: Option<Args>): Progress {
    Progress(p.steps + [r], p.signatures + [sig], facts,
             Trace(p.trace.executed + [sig], if data.Some? then p.trace.data + [data.value] else p.trace.data,
                   p.trace.frozen))
  }

  /** How a mission ends: the record it would construct, and what happened. */
  datatype Ending = Ending(record: MissionRun, trace: Trace)

  datatype Move = Over(ending: Ending) | On(next: Progress)

  ghost function EndEarly(plan: Plan, p: Progress, failure: string, failed: bool): Move
    requires |p.steps| <= |plan.bound|
  {
    Over(Ending(FailedRun(plan, p, |p.signatures|, PerformedCount(p.steps), failure, failed), p.trace))
  }

  /** The last step freezes the write for approval. */
  ghost function Freeze(w: World, plan: Plan, p: Progress, args: Args): Move
    requires |p.steps| < |plan.bound|
  {
    var bound := plan.bound[|p.steps|];
    var sig := Signature(bound.tool.name, args);
    match w.freeze(bound.tool.name, bound.tool.version, args)
    case Err(error) =>
      var record := Record(bound, StepFailed, sig, "", None);
      EndEarly(plan, Progress(p.steps + [record], p.signatures + [sig], p.facts, p.trace), error, true)
    case Ok(id) =>
      var op := PendingOperation(id, "pending", bound.tool.name, bound.tool.version, args);
      Over(Ending(MissionRun(plan, ApprovalPending, p.steps + [Record(bound, StepPending, sig, "", None)],
                             |p.signatures| + 1, PerformedCount(p.steps), p.signatures + [sig], p.facts, Some(op), ""),
                  p.trace.(frozen := [sig])))
  }

  /** Every other step executes a read once; an error or a refused result ends the mission. */
  ghost function Read(w: World, k: Checks, plan: Plan, p: Progress, args: Args): Move
    requires |p.steps| < |plan.bound| == |plan.steps|
  {
    var i, bound := |p.steps|, plan.bound[|p.steps|];
    var sig := Signature(bound.tool.name, args);
    match w.execute(i, bound.tool.name, args)
    case Raised(error) =>
      EndEarly(plan, AfterCall(p, Record(bound, StepFailed, sig, "", None), sig, p.facts, None), error, true)
    case Returned(data, run) =>
      if Refused(k, plan, i, data, p.facts) then
        var record := Record(bound, StepFailed, sig, run, Some(data));
        EndEarly(plan, AfterCall(p, record, sig, k.stored(plan.steps[i], i, data, p.facts), Some(data)),
                 w.className(ResultRejected), true)
      else
        var facts :| k.judged(plan.steps[i], i, data, p.facts, facts);
        On(AfterCall(p, Record(bound, StepSucceeded, sig, run, Some(data)), sig, facts, Some(data)))
  }

  /** There is a next step, and a result for each earlier one. */
  predicate Underway(plan: Plan, p: Progress) {
    |p.steps| == |p.trace.data| < |plan.bound| == |plan.steps|
  }

  ghost function Advance(w: World, k: Checks, plan: Plan, p: Progress): (move: Move)
    requires Underway(plan, p)
    ensures move.On? ==> Underway(plan, move.next) && |move.next.steps| == |p.steps| + 1
  {
    match Preparation(w, k, plan, |p.steps|, ResultsOf(plan, p.trace.data), p.facts.selected)
    case Err(cause) => EndEarly(plan, p, w.className(cause), false)
    case Ok(args) => if |p.steps| == |plan.bound| - 1 then Freeze(w, plan, p, args) else Read(w, k, plan, p, args)
  }

  /** The whole run from `p` on. */
  ghost function Play(w: World, k: Checks, plan: Plan, p: Progress): Ending
    requires Underway(plan, p)
    decreases |plan.bound| - |p.steps|
  {
    match Advance(w, k, plan, p)
    case Over(ending) => ending
    case On(next) => Play(w, k, plan, next)
  }

  const START: Progress := Progress([], [], NOTHING, Trace([], [], []))

  ghost function Run(w: World, k: Checks, plan: Plan): Ending
    requires 1 <= |plan.steps| == |plan.bound|
  {
    Play(w, k, plan, START)
  }

  // ----- what every step keeps ---------------------------------------------------------------------

  /** Read `j` ran the baseline tool of its position, registered as read-only. */
  ghost predicate ReadAt(w: World, j: nat, sig: Signature) {
    && j < |w.names| && sig.tool == w.names[j]
    && w.names[j] in w.registryAt(j) && w.registryAt(j)[w.names[j]].risk == ReadOnly
  }

  /** Call number `j` returned `data`. */
  ghost predicate Answered(w: World, j: nat, sig: Signature, data: Args) {
    var outcome := w.execute(j, sig.tool, sig.args);
    outcome.Returned? && outcome.data == data
  }

  /** The reads so far, each at its baseline position, returned exactly this data. */
  ghost predicate Observed(w: World, t: Trace) {
    && |t.data| <= |t.executed| <= 4 && |t.executed| <= |t.data| + 1
    && (forall j :: 0 <= j < |t.executed| ==> ReadAt(w, j, t.executed[j]))
    && (forall j :: 0 <= j < |t.data| ==> Answered(w, j, t.executed[j], t.data[j]))
  }

  /** Call `j` ran on the arguments bound from the results before it and validated under the registry it met. The
      project is known from the first result on. */
  ghost predicate CalledAt(w: World, k: Checks, plan: Plan, t: Trace, j: nat, selected: string) {
    && j < |t.executed| && j <= |t.data| <= |plan.steps| && j < |plan.steps|
    && k.calls(w.registryAt(j), plan.steps[j], ResultsOf(plan, t.data[..j]), if j == 0 then "" else selected,
               t.executed[j].args)
  }

  ghost predicate Called(w: World, k: Checks, plan: Plan, t: Trace, selected: string) {
    forall j :: 0 <= j < |t.executed| ==> CalledAt(w, k, plan, t, j, selected)
  }

  /** The record of step `j` holds its call and what came back. */
  ghost predicate StepShows(w: World, r: StepRun, j: nat, sig: Signature) {
    && r.signature == Some(sig) && r.argsDigest == Some(sig.args)
    && match w.execute(j, sig.tool, sig.args)
       case Returned(data, run) => r.resultDigest == Some(data) && r.run == run && r.performed
       case Raised(_) => r.resultDigest == None && r.run == "" && !r.performed
  }

  ghost predicate Shown(w: World, steps: seq<StepRun>, t: Trace) {
    |t.executed| <= |steps| && forall j :: 0 <= j < |t.executed| ==> StepShows(w, steps[j], j, t.executed[j])
  }

  /** The accepted results, one judgement after another, lead from nothing to `f`. */
  ghost predicate Evidence(k: Checks, steps: seq<ProposedStep>, data: seq<Args>, f: Facts)
    requires |data| <= |steps|
    decreases |data|
  {
    if data == [] then f == NOTHING
    else
      var earlier, last := data[..|data| - 1], data[|data| - 1];
      exists g :: Evidence(k, steps, earlier, g) && k.judged(steps[|earlier|], |earlier|, last, g, f)
  }

  lemma CountsPushed(steps: seq<StepRun>, r: StepRun)
    ensures RecordedSignatures(steps + [r]) ==
              RecordedSignatures(steps) + if r.signature.Some? then [r.signature.value] else []
    ensures PerformedCount(steps + [r]) == PerformedCount(steps) + if r.performed then 1 else 0
  {
    assert (steps + [r])[..|steps|] == steps;
  }

  lemma AcceptedPushed(fits: TextCheck, plan: Plan, steps: seq<StepRun>, r: StepRun)
    requires |steps| < |plan.bound| && StepsAccepted(fits, plan, steps)
    requires StepRunAccepted(fits, r) && Mirrors(plan.bound[|steps|], r)
    ensures StepsAccepted(fits, plan, steps + [r])
  {
    assert (steps + [r])[..|steps|] == steps;
  }

  lemma BookStep(fits: TextCheck, plan: Plan, steps: seq<StepRun>, signatures: seq<Signature>, r: StepRun)
    requires Booked(fits, plan, steps, signatures) && |signatures| < 5 && |steps| < |plan.bound|
    requires StepRunAccepted(fits, r) && Mirrors(plan.bound[|steps|], r)
    requires r.signature.Some? && (r.performed ==> PerformedCount(steps) < 4)
    ensures Booked(fits, plan, steps + [r], signatures + [r.signature.value])
    ensures PerformedCount(steps + [r]) == PerformedCount(steps) + if r.performed then 1 else 0
  {
    CountsPushed(steps, r);
    AcceptedPushed(fits, plan, steps, r);
  }

  lemma PendingRunConsistent(fits: TextCheck, write: string, plan: Plan, p: Progress, last: StepRun,
                             op: PendingOperation)
    requires Booked(fits, plan, p.steps, p.signatures) && FactsBounded(fits, p.facts)
    requires |plan.bound| == 5 && |p.steps| == |p.signatures| == 4 && PerformedCount(p.steps) == 4
    requires AllSucceeded(p.steps)
    requires StepRunAccepted(fits, last) && Mirrors(plan.bound[4], last) && last.status == StepPending
    requires last.signature.Some? && !last.performed
    requires op.id != "" && op.status == "pending" && op.tool == write
    ensures Consistent(fits, write, MissionRun(plan, ApprovalPending, p.steps + [last], |p.signatures| + 1,
                                               PerformedCount(p.steps), p.signatures + [last.signature.value],
                                               p.facts, Some(op), ""))
  {
    assert (p.steps + [last])[..4] == p.steps;
  }

  ghost predicate AllSucceeded(steps: seq<StepRun>) {
    forall i :: 0 <= i < |steps| ==> steps[i].status == StepSucceeded
  }

  /** The step records after some successful reads add up. */
  ghost predicate Accounted(k: Checks, plan: Plan, p: Progress) {
    && Booked(k.fits, plan, p.steps, p.signatures) && FactsBounded(k.fits, p.facts)
    && |p.steps| == |p.signatures| <= 4 && PerformedCount(p.steps) == |p.steps| && AllSucceeded(p.steps)
  }

  /** What was observed so far bears out what is known. */
  ghost predicate Witnessed(w: World, k: Checks, plan: Plan, p: Progress) {
    && |p.steps| == |p.trace.data| == |p.trace.executed| <= 4 && |p.steps| <= |plan.steps|
    && p.trace.frozen == [] && Observed(w, p.trace) && Evidence(k, plan.steps, p.trace.data, p.facts)
    && Called(w, k, plan, p.trace, p.facts.selected) && Shown(w, p.steps, p.trace)
  }

  ghost predicate InStep(w: World, k: Checks, plan: Plan, p: Progress) {
    Accounted(k, plan, p) && Witnessed(w, k, plan, p)
  }

  /** Each step's status: those before the last attempted one succeeded, the last says how the mission ended, and the
      rest were never attempted. */
  ghost predicate StatusesRight(m: MissionRun) {
    && |m.signatures| <= |m.steps|
    && forall i :: 0 <= i < |m.steps| ==>
         if i >= |m.signatures| then Untouched(m.steps[i])
         else if i + 1 < |m.signatures| || m.status == Blocked then m.steps[i].status == StepSucceeded
         else m.steps[i].status == if m.status == ApprovalPending then StepPending else StepFailed
  }

  ghost predicate Untouched(r: StepRun) {
    && r.status == NotAttempted && r.signature == None && r.argsDigest == None && r.resultDigest == None
    && r.run == "" && !r.performed
  }

  /** The steps so far, of which only the last may have failed. */
  ghost predicate StatusesSoFar(p: Progress, failed: bool) {
    && |p.signatures| == |p.steps| && (failed ==> p.steps != [])
    && forall i :: 0 <= i < |p.steps| ==>
         p.steps[i].status == if failed && i + 1 == |p.steps| then StepFailed else StepSucceeded
  }

  /** What a mission promises about the world, whatever the tools did. */
  ghost predicate Promised(w: World, k: Checks, plan: Plan, m: MissionRun, t: Trace) {
    && |w.names| == 5 && m.plan == plan && Consistent(k.fits, w.names[4], m) && Observed(w, t)
    && m.executed == |t.data| && Called(w, k, plan, t, m.facts.selected) && Shown(w, m.steps, t) && StatusesRight(m)
    && (m.status != ApprovalPending ==> t.frozen == [])
    && (m.status == ApprovalPending ==>
          && |t.data| == 4 && |plan.steps| == 5 && Evidence(k, plan.steps, t.data, m.facts)
          && t.frozen == [Signature(w.names[4], m.pending.value.argsDigest)]
          && |m.steps| == 5 && m.steps[4].signature == Some(t.frozen[0])
          && m.steps[4].argsDigest == Some(t.frozen[0].args) && m.pending.value.version == m.steps[4].version
          && w.freeze(w.names[4], m.steps[4].version, t.frozen[0].args) == Ok(m.pending.value.id)
          && k.calls(w.registryAt(4), plan.steps[4], ResultsOf(plan, t.data), m.facts.selected,
                     m.pending.value.argsDigest))
  }

  /** Before step `|data|` the registry differed from the plan, or no arguments could be made. */
  ghost predicate StopsBefore(w: World, k: Checks, plan: Plan, data: seq<Args>, selected: string) {
    && |data| < |plan.bound| && |data| < |plan.steps|
    && var registry := w.registryAt(|data|);
       !k.matches(plan, registry) || Uncallable(k, registry, plan.steps[|data|], ResultsOf(plan, data), selected)
  }

  ghost predicate LastRefused(k: Checks, plan: Plan, data: seq<Args>, known: Facts) {
    && data != [] && |data| <= |plan.steps| && Evidence(k, plan.steps, data[..|data| - 1], known)
    && Refused(k, plan, |data| - 1, data[|data| - 1], known)
  }

  ghost predicate CallRaised(w: World, t: Trace, error: string) {
    && |t.executed| == |t.data| + 1
    && w.execute(|t.data|, t.executed[|t.data|].tool, t.executed[|t.data|].args) == Raised(error)
  }

  /** Why the mission stopped before a call. */
  ghost function CauseOf(k: Checks, plan: Plan, registry: Registry, step: ProposedStep, results: Results,
                         selected: string): Cause {
    if !k.matches(plan, registry) then RegistryChanged
    else if AllBindable(step.bindings, results, selected) then ArgumentsInvalid
    else ArgumentsUnbound
  }

  /** The last result was refused, and what it reported was taken over. */
  ghost predicate EndsRefused(k: Checks, plan: Plan, data: seq<Args>, known: Facts, facts: Facts) {
    && LastRefused(k, plan, data, known)
    && facts == k.stored(plan.steps[|data| - 1], |data| - 1, data[|data| - 1], known)
  }

  /** The failure class names what happened. */
  ghost predicate FailsAs(w: World, k: Checks, plan: Plan, m: MissionRun, t: Trace) {
    || CallRaised(w, t, m.failure)
    || (m.failure == w.className(ResultRejected) && exists known :: EndsRefused(k, plan, t.data, known, m.facts))
    || (|t.data| == 4 && |plan.bound| == |plan.steps| == 5 && exists args ::
          && k.calls(w.registryAt(4), plan.steps[4], ResultsOf(plan, t.data), m.facts.selected, args)
          && w.freeze(plan.bound[4].tool.name, plan.bound[4].tool.version, args) == Err(m.failure))
  }

  /** A mission falls short of a pending write only for a reason found in the world, which its record names. */
  ghost predicate Grounds(w: World, k: Checks, plan: Plan, m: MissionRun, t: Trace) {
    match m.status
    case ApprovalPending => true
    case Blocked =>
      && |t.executed| == |t.data| && StopsBefore(w, k, plan, t.data, m.facts.selected)
      && m.failure == w.className(CauseOf(k, plan, w.registryAt(|t.data|), plan.steps[|t.data|],
                                          ResultsOf(plan, t.data), m.facts.selected))
    case Failed => FailsAs(w, k, plan, m, t)
  }

  ghost predicate Vouched(w: World, k: Checks, plan: Plan, e: Ending) {
    Promised(w, k, plan, e.record, e.trace) && Grounds(w, k, plan, e.record, e.trace)
  }

  /** A mission that stops early still promises everything. */
  lemma EarlyEnd(w: World, k: Checks, plan: Plan, p: Progress, failure: string, failed: bool)
    requires |w.names| == 5 && PlanTextBounded(k.fits, plan) && FactsBounded(k.fits, p.facts)
    requires Booked(k.fits, plan, p.steps, p.signatures)
    requires Observed(w, p.trace) && p.trace.frozen == [] && |p.trace.data| == PerformedCount(p.steps)
    requires Called(w, k, plan, p.trace, p.facts.selected) && Shown(w, p.steps, p.trace) && StatusesSoFar(p, failed)
    requires k.fits(failure, 200) && failure != ""
    requires failed <==> SomeFailed(p.steps)
    ensures Promised(w, k, plan, EndEarly(plan, p, failure, failed).ending.record, p.trace)
  {
    FailedRunConsistent(k.fits, w.names[4], plan, p, failure, failed);
    EarlyRecordShows(w, plan, p, failure, failed);
  }

  /** The padded record shows the steps so far and nothing of the others. */
  lemma EarlyRecordShows(w: World, plan: Plan, p: Progress, failure: string, failed: bool)
    requires |p.steps| <= |plan.bound| && Shown(w, p.steps, p.trace) && StatusesSoFar(p, failed)
    ensures var m := EndEarly(plan, p, failure, failed).ending.record; Shown(w, m.steps, p.trace) && StatusesRight(m)
  {
    var m := EndEarly(plan, p, failure, failed).ending.record;
    forall i | 0 <= i < |m.steps|
      ensures i >= |p.steps| ==> Untouched(m.steps[i])
    {
    }
  }

  /** The observations after one more call. */
  lemma ObservedStep(w: World, t: Trace, sig: Signature, data: Option<Args>)
    requires Observed(w, t) && |t.executed| == |t.data| < 4 && ReadAt(w, |t.data|, sig)
    requires data.Some? ==> Answered(w, |t.data|, sig, data.value)
    ensures Observed(w, Trace(t.executed + [sig], if data.Some? then t.data + [data.value] else t.data, t.frozen))
  {
  }

  /** One more call on prepared arguments. */
  lemma CalledStep(w: World, k: Checks, plan: Plan, t: Trace, selected: string, sig: Signature, data: Option<Args>,
                   after: string)
    requires |t.executed| == |t.data| < |plan.steps| && Called(w, k, plan, t, selected)
    requires k.calls(w.registryAt(|t.data|), plan.steps[|t.data|], ResultsOf(plan, t.data), selected, sig.args)
    requires if t.data == [] then selected == "" else after == selected
    ensures var more := if data.Some? then t.data + [data.value] else t.data;
            Called(w, k, plan, Trace(t.executed + [sig], more, t.frozen), after)
  {
    var u := Trace(t.executed + [sig], if data.Some? then t.data + [data.value] else t.data, t.frozen);
    forall j | 0 <= j < |u.executed|
      ensures CalledAt(w, k, plan, u, j, after)
    {
      assert u.data[..j] == t.data[..j];
      if j < |t.executed| {
        assert CalledAt(w, k, plan, t, j, selected);
      } else {
        assert t.data[..j] == t.data;
      }
    }
  }

  lemma ShownStep(w: World, steps: seq<StepRun>, t: Trace, r: StepRun, sig: Signature, data: seq<Args>)
    requires |steps| == |t.executed| && Shown(w, steps, t) && StepShows(w, r, |steps|, sig)
    ensures Shown(w, steps + [r], Trace(t.executed + [sig], data, t.frozen))
  {
  }

  lemma SelectedKept(w: World, k: Checks, step: ProposedStep, i: nat, data: Args, f: Facts)
    requires ChecksOf(w, k)
    ensures k.stored(step, i, data, f).selected == f.selected
    ensures forall g :: i > 0 && k.judged(step, i, data, f, g) ==> g.selected == f.selected
  {
    assert StoredMeans(w, k, step, i, data, f);
    forall g | i > 0 && k.judged(step, i, data, f, g)
      ensures g.selected == f.selected
    {
      assert JudgedMeans(w, k, step, i, data, f, g);
    }
  }

  lemma EvidenceStep(k: Checks, steps: seq<ProposedStep>, data: seq<Args>, f: Facts, more: Args, g: Facts)
    requires |data| < |steps| && Evidence(k, steps, data, f) && k.judged(steps[|data|], |data|, more, f, g)
    ensures Evidence(k, steps, data + [more], g)
  {
    assert (data + [more])[..|data|] == data;
    assert Evidence(k, steps, data, f);
  }

  /** An accepted read carries the records one step further. */
  lemma AccountedStep(k: Checks, plan: Plan, p: Progress, r: StepRun, sig: Signature, facts: Facts, data: Args)
    requires Accounted(k, plan, p) && |p.steps| < 4 && |plan.bound| == 5
    requires StepRunAccepted(k.fits, r) && Mirrors(plan.bound[|p.steps|], r)
    requires r.status == StepSucceeded && r.performed && r.signature == Some(sig) && FactsBounded(k.fits, facts)
    ensures Accounted(k, plan, AfterCall(p, r, sig, facts, Some(data)))
  {
    BookStep(k.fits, plan, p.steps, p.signatures, r);
  }

  lemma WitnessedStep(w: World, k: Checks, plan: Plan, p: Progress, r: StepRun, sig: Signature, facts: Facts,
                      data: Args)
    requires Witnessed(w, k, plan, p) && |p.steps| < 4 && |p.steps| < |plan.steps|
    requires ReadAt(w, |p.steps|, sig) && Answered(w, |p.steps|, sig, data)
    requires k.judged(plan.steps[|p.steps|], |p.steps|, data, p.facts, facts)
    requires Prepared(w, k, plan, p, sig) && StepShows(w, r, |p.steps|, sig) && KeepsSelected(p, facts)
    ensures Witnessed(w, k, plan, AfterCall(p, r, sig, facts, Some(data)))
  {
    CalledStep(w, k, plan, p.trace, p.facts.selected, sig, Some(data), facts.selected);
    ShownStep(w, p.steps, p.trace, r, sig, p.trace.data + [data]);
    ObservedStep(w, p.trace, sig, Some(data));
    EvidenceStep(k, plan.steps, p.trace.data, p.facts, data, facts);
  }

  /** The next call runs on the arguments prepared for it. */
  ghost predicate Prepared(w: World, k: Checks, plan: Plan, p: Progress, sig: Signature) {
    && |p.trace.data| < |plan.steps| && (p.trace.data == [] ==> p.facts.selected == "")
    && k.calls(w.registryAt(|p.trace.data|), plan.steps[|p.trace.data|], ResultsOf(plan, p.trace.data),
               p.facts.selected, sig.args)
  }

  ghost predicate KeepsSelected(p: Progress, facts: Facts) {
    p.trace.data != [] ==> facts.selected == p.facts.selected
  }

  /** A failed call ends the mission with a record that still adds up. */
  lemma FailedCall(w: World, k: Checks, plan: Plan, p: Progress, r: StepRun, sig: Signature, facts: Facts,
                   data: Option<Args>, failure: string)
    requires InStep(w, k, plan, p) && |p.steps| < 4 && |plan.bound| == 5 && |w.names| == 5
    requires PlanTextBounded(k.fits, plan)
    requires StepRunAccepted(k.fits, r) && Mirrors(plan.bound[|p.steps|], r)
    requires r.status == StepFailed && r.performed == data.Some? && r.signature == Some(sig)
    requires ReadAt(w, |p.steps|, sig) && FactsBounded(k.fits, facts) && k.fits(failure, 200) && failure != ""
    requires data.Some? ==> Answered(w, |p.steps|, sig, data.value)
    requires Prepared(w, k, plan, p, sig) && StepShows(w, r, |p.steps|, sig) && KeepsSelected(p, facts)
    ensures var q := AfterCall(p, r, sig, facts, data);
            |q.steps| <= |plan.bound| && Promised(w, k, plan, EndEarly(plan, q, failure, true).ending.record, q.trace)
  {
    var q := AfterCall(p, r, sig, facts, data);
    BookStep(k.fits, plan, p.steps, p.signatures, r);
    ObservedStep(w, p.trace, sig, data);
    CalledStep(w, k, plan, p.trace, p.facts.selected, sig, data, facts.selected);
    ShownStep(w, p.steps, p.trace, r, sig, q.trace.data);
    FailedStatuses(p, r, sig, facts, data);
    EarlyEnd(w, k, plan, q, failure, true);
  }

  lemma FailedStatuses(p: Progress, r: StepRun, sig: Signature, facts: Facts, data: Option<Args>)
    requires AllSucceeded(p.steps) && |p.signatures| == |p.steps| && r.status == StepFailed
    ensures var q := AfterCall(p, r, sig, facts, data); StatusesSoFar(q, true) && SomeFailed(q.steps)
  {
    assert AfterCall(p, r, sig, facts, data).steps[|p.steps|].status == StepFailed;
  }

  lemma RefusedIsGrounds(k: Checks, plan: Plan, data: seq<Args>, last: Args, known: Facts)
    requires |data| < |plan.steps| && Evidence(k, plan.steps, data, known) && Refused(k, plan, |data|, last, known)
    ensures EndsRefused(k, plan, data + [last], known, k.stored(plan.steps[|data|], |data|, last, known))
  {
    assert (data + [last])[..|data|] == data;
  }

  /** What is known keeps a bounded project, whatever a read returns. */
  lemma FactsStayBounded(w: World, k: Checks, step: ProposedStep, i: nat, data: Args, f: Facts)
    requires ChecksOf(w, k) && FactsBounded(k.fits, f)
    ensures FactsBounded(k.fits, k.stored(step, i, data, f))
    ensures forall g :: k.judged(step, i, data, f, g) ==> FactsBounded(k.fits, g)
  {
    assert StoredMeans(w, k, step, i, data, f);
    forall g | k.judged(step, i, data, f, g)
      ensures FactsBounded(k.fits, g)
    {
      assert JudgedMeans(w, k, step, i, data, f, g);
      if i == 0 {
        SelectionBounded(w.fold, data["projects"], g.selected);
        assert FitsMeans(k, g.selected, 100);
      }
    }
  }

  /** A selected name is bounded text as it stands. */
  lemma SelectionBounded(fold: string -> string, projects: Value, name: string)
    requires IsSelection(fold, projects, name)
    ensures BoundedText(name, 100) && PrintsWithin(name, 100)
  {
    var cs := Candidates(fold, projects);
    var i :| IsBest(cs, i) && cs[i].name == name;
    assert IsProject(projects.items[i]);
    StrippedStaysBounded(projects.items[i].fields["name"].s, 100);
    StrippedPrintsWithin(projects.items[i].fields["name"].s, 100);
  }

  /** What the loop relies on in the checks, without their definitions. */
  ghost predicate Tame(w: World, k: Checks) {
    && TextsSane(w, k.fits)
    && (forall step, i, data, f :: JudgesWell(k, step, i, data, f))
    && (forall plan, r, i: nat :: MatchesWell(w, k, plan, r, i))
  }

  /** Whatever a read returns, the project stays bounded text, and stays the same from the second read on. */
  ghost predicate JudgesWell(k: Checks, step: ProposedStep, i: nat, data: Args, f: Facts) {
    && (FactsBounded(k.fits, f) ==> FactsBounded(k.fits, k.stored(step, i, data, f)))
    && k.stored(step, i, data, f).selected == f.selected
    && forall g :: k.judged(step, i, data, f, g) ==>
         (FactsBounded(k.fits, f) ==> FactsBounded(k.fits, g)) && (i > 0 ==> g.selected == f.selected)
  }

  ghost predicate MatchesWell(w: World, k: Checks, plan: Plan, r: Registry, i: nat) {
    k.matches(plan, r) && i < |plan.bound| ==> Matched(w.names, plan, r, i)
  }

  lemma SaneIsTame(w: World, k: Checks)
    requires Sane(w, k)
    ensures Tame(w, k)
  {
    forall step, i, data, f
      ensures JudgesWell(k, step, i, data, f)
    {
      SelectedKept(w, k, step, i, data, f);
      if FactsBounded(k.fits, f) {
        FactsStayBounded(w, k, step, i, data, f);
      }
    }
    forall plan, r, i: nat
      ensures MatchesWell(w, k, plan, r, i)
    {
      assert MatchesMeans(w, k, plan, r);
      if k.matches(plan, r) && i < |plan.bound| {
        MatchedRegistryFacts(w.names, plan, r, i);
      }
    }
  }

  /** A read that is about to run: prepared arguments, the tool of its position, a plan with bounded texts. */
  ghost predicate ReadReady(w: World, k: Checks, plan: Plan, p: Progress, sig: Signature) {
    && InStep(w, k, plan, p) && |p.steps| < 4 && |plan.bound| == |plan.steps| == 5 == |w.names|
    && PlanTextBounded(k.fits, plan) && Prepared(w, k, plan, p, sig) && ReadAt(w, |p.steps|, sig)
  }

  lemma ReadRaises(w: World, k: Checks, plan: Plan, p: Progress, sig: Signature, error: string)
    requires ReadReady(w, k, plan, p, sig) && k.fits(error, 200) && error != ""
    requires w.execute(|p.steps|, sig.tool, sig.args) == Raised(error)
    ensures var r := Record(plan.bound[|p.steps|], StepFailed, sig, "", None);
            Vouched(w, k, plan, EndEarly(plan, AfterCall(p, r, sig, p.facts, None), error, true).ending)
  {
    var bound := plan.bound[|p.steps|];
    assert StepRunAccepted(k.fits, Skipped(bound));
    FailedCall(w, k, plan, p, Record(bound, StepFailed, sig, "", None), sig, p.facts, None, error);
  }

  lemma ReadRefused(w: World, k: Checks, plan: Plan, p: Progress, sig: Signature, data: Args, run: string)
    requires ReadReady(w, k, plan, p, sig) && k.fits(w.className(ResultRejected), 200)
    requires w.className(ResultRejected) != "" && (run != "" ==> k.fits(run, 128))
    requires w.execute(|p.steps|, sig.tool, sig.args) == Returned(data, run)
    requires Refused(k, plan, |p.steps|, data, p.facts)
    requires JudgesWell(k, plan.steps[|p.steps|], |p.steps|, data, p.facts)
    ensures var facts := k.stored(plan.steps[|p.steps|], |p.steps|, data, p.facts);
            var r := Record(plan.bound[|p.steps|], StepFailed, sig, run, Some(data));
            Vouched(w, k, plan, EndEarly(plan, AfterCall(p, r, sig, facts, Some(data)), w.className(ResultRejected),
                                         true).ending)
  {
    var bound := plan.bound[|p.steps|];
    assert StepRunAccepted(k.fits, Skipped(bound)) && Answered(w, |p.steps|, sig, data);
    FailedCall(w, k, plan, p, Record(bound, StepFailed, sig, run, Some(data)), sig,
               k.stored(plan.steps[|p.steps|], |p.steps|, data, p.facts), Some(data), w.className(ResultRejected));
    RefusedIsGrounds(k, plan, p.trace.data, data, p.facts);
  }

  lemma ReadAccepted(w: World, k: Checks, plan: Plan, p: Progress, sig: Signature, data: Args, run: string,
                     facts: Facts)
    requires ReadReady(w, k, plan, p, sig) && (run != "" ==> k.fits(run, 128))
    requires w.execute(|p.steps|, sig.tool, sig.args) == Returned(data, run)
    requires k.judged(plan.steps[|p.steps|], |p.steps|, data, p.facts, facts)
    requires JudgesWell(k, plan.steps[|p.steps|], |p.steps|, data, p.facts)
    ensures var r := Record(plan.bound[|p.steps|], StepSucceeded, sig, run, Some(data));
            InStep(w, k, plan, AfterCall(p, r, sig, facts, Some(data)))
  {
    var bound := plan.bound[|p.steps|];
    assert StepRunAccepted(k.fits, Skipped(bound)) && Answered(w, |p.steps|, sig, data);
    var r := Record(bound, StepSucceeded, sig, run, Some(data));
    AccountedStep(k, plan, p, r, sig, facts, data);
    WitnessedStep(w, k, plan, p, r, sig, facts, data);
  }

  /** One read: anything unexpected ends the mission, otherwise one more result is in. */
  lemma ReadKeeps(w: World, k: Checks, plan: Plan, p: Progress, args: Args)
    requires Tame(w, k) && PlanTextBounded(k.fits, plan) && InStep(w, k, plan, p)
    requires |p.steps| < 4 && Matched(w.names, plan, w.registryAt(|p.steps|), |p.steps|)
    requires k.calls(w.registryAt(|p.steps|), plan.steps[|p.steps|], ResultsOf(plan, p.trace.data), p.facts.selected,
                     args)
    ensures var move := Read(w, k, plan, p, args);
            && (move.Over? ==> Vouched(w, k, plan, move.ending))
            && (move.On? ==> InStep(w, k, plan, move.next) && |move.next.steps| == |p.steps| + 1)
  {
    var i, bound := |p.steps|, plan.bound[|p.steps|];
    var sig := Signature(bound.tool.name, args);
    assert ReadReady(w, k, plan, p, sig);
    match w.execute(i, bound.tool.name, args)
    case Raised(error) => ReadRaises(w, k, plan, p, sig, error);
    case Returned(data, run) =>
      assert JudgesWell(k, plan.steps[i], i, data, p.facts);
      if Refused(k, plan, i, data, p.facts) {
        ReadRefused(w, k, plan, p, sig, data, run);
      } else {
        ReadAccepted(w, k, plan, p, sig, data, run, Read(w, k, plan, p, args).next.facts);
      }
  }

  lemma ShownLonger(w: World, steps: seq<StepRun>, r: StepRun, t: Trace, frozen: seq<Signature>)
    requires Shown(w, steps, t)
    ensures Shown(w, steps + [r], t.(frozen := frozen))
  {
  }

  /** The store refuses the operation. */
  lemma FreezeFails(w: World, k: Checks, plan: Plan, p: Progress, args: Args, error: string)
    requires |w.names| == 5 && PlanTextBounded(k.fits, plan) && InStep(w, k, plan, p)
    requires |p.steps| == 4 && |plan.bound| == 5 && k.fits(error, 200) && error != ""
    requires w.freeze(plan.bound[4].tool.name, plan.bound[4].tool.version, args) == Err(error)
    ensures var move := Freeze(w, plan, p, args);
            && move.Over? && Promised(w, k, plan, move.ending.record, p.trace) && move.ending.trace == p.trace
            && move.ending.record.status == Failed && move.ending.record.failure == error
            && move.ending.record.facts == p.facts
  {
    var bound := plan.bound[4];
    var sig := Signature(bound.tool.name, args);
    assert StepRunAccepted(k.fits, Skipped(bound));
    var record := Record(bound, StepFailed, sig, "", None);
    BookStep(k.fits, plan, p.steps, p.signatures, record);
    ShownLonger(w, p.steps, record, p.trace, []);
    var q := Progress(p.steps + [record], p.signatures + [sig], p.facts, p.trace);
    assert q.steps[4].status == StepFailed;
    EarlyEnd(w, k, plan, q, error, true);
  }

  /** The store takes the operation. */
  lemma FreezePends(w: World, k: Checks, plan: Plan, p: Progress, args: Args, id: string)
    requires |w.names| == 5 && PlanTextBounded(k.fits, plan) && InStep(w, k, plan, p)
    requires |p.steps| == 4 && Matched(w.names, plan, w.registryAt(4), 4) && id != ""
    requires k.calls(w.registryAt(4), plan.steps[4], ResultsOf(plan, p.trace.data), p.facts.selected, args)
    requires w.freeze(plan.bound[4].tool.name, plan.bound[4].tool.version, args) == Ok(id)
    ensures var move := Freeze(w, plan, p, args);
            && move.Over? && Promised(w, k, plan, move.ending.record, move.ending.trace)
            && move.ending.record.status == ApprovalPending
  {
    var bound := plan.bound[4];
    var sig := Signature(bound.tool.name, args);
    assert StepRunAccepted(k.fits, Skipped(bound));
    var record := Record(bound, StepPending, sig, "", None);
    ShownLonger(w, p.steps, record, p.trace, [sig]);
    CalledWhateverFrozen(w, k, plan, p.trace, p.facts.selected, [sig]);
    PendingRunConsistent(k.fits, w.names[4], plan, p, record,
                         PendingOperation(id, "pending", bound.tool.name, bound.tool.version, args));
  }

  lemma CalledWhateverFrozen(w: World, k: Checks, plan: Plan, t: Trace, selected: string, frozen: seq<Signature>)
    requires Called(w, k, plan, t, selected)
    ensures Called(w, k, plan, t.(frozen := frozen), selected)
  {
    forall j | 0 <= j < |t.executed|
      ensures CalledAt(w, k, plan, t.(frozen := frozen), j, selected)
    {
      assert CalledAt(w, k, plan, t, j, selected);
    }
  }

  /** The last step: the write is frozen for approval, never executed. */
  lemma FreezeKeeps(w: World, k: Checks, plan: Plan, p: Progress, args: Args)
    requires Tame(w, k) && PlanTextBounded(k.fits, plan) && InStep(w, k, plan, p)
    requires |p.steps| == 4 && Matched(w.names, plan, w.registryAt(4), 4)
    requires k.calls(w.registryAt(4), plan.steps[4], ResultsOf(plan, p.trace.data), p.facts.selected, args)
    ensures Freeze(w, plan, p, args).Over? && Vouched(w, k, plan, Freeze(w, plan, p, args).ending)
  {
    match w.freeze(plan.bound[4].tool.name, plan.bound[4].tool.version, args)
    case Err(error) => FreezeFails(w, k, plan, p, args, error);
    case Ok(id) => FreezePends(w, k, plan, p, args, id);
  }

  /** A prepared step runs its baseline tool under a matching registry. */
  lemma PreparedMatches(w: World, k: Checks, plan: Plan, i: nat, results: Results, selected: string)
    requires ChecksOf(w, k) && i < |plan.steps| == |plan.bound|
    ensures Preparation(w, k, plan, i, results, selected).Ok? ==>
              && Matched(w.names, plan, w.registryAt(i), i)
              && k.calls(w.registryAt(i), plan.steps[i], results, selected,
                         Preparation(w, k, plan, i, results, selected).value)
  {
    assert MatchesMeans(w, k, plan, w.registryAt(i));
    if Preparation(w, k, plan, i, results, selected).Ok? {
      MatchedRegistryFacts(w.names, plan, w.registryAt(i), i);
    }
  }

  /** A mission that stops before a call. */
  lemma StopKeeps(w: World, k: Checks, plan: Plan, p: Progress, cause: Cause)
    requires TextsSane(w, k.fits) && PlanTextBounded(k.fits, plan) && Underway(plan, p) && InStep(w, k, plan, p)
    requires Preparation(w, k, plan, |p.steps|, ResultsOf(plan, p.trace.data), p.facts.selected) == Err(cause)
    ensures Vouched(w, k, plan, EndEarly(plan, p, w.className(cause), false).ending)
  {
    EarlyEnd(w, k, plan, p, w.className(cause), false);
  }

  /** Every step of a mission ends it with a record that is borne out, or adds one accepted read. */
  lemma AdvanceKeeps(w: World, k: Checks, plan: Plan, p: Progress)
    requires Tame(w, k) && PlanConstructed(k.fits, plan) && Underway(plan, p) && InStep(w, k, plan, p)
    ensures var move := Advance(w, k, plan, p);
            && (move.Over? ==> Vouched(w, k, plan, move.ending))
            && (move.On? ==> InStep(w, k, plan, move.next))
  {
    var i, results := |p.steps|, ResultsOf(plan, p.trace.data);
    match Preparation(w, k, plan, i, results, p.facts.selected)
    case Err(cause) => StopKeeps(w, k, plan, p, cause);
    case Ok(args) =>
      assert MatchesWell(w, k, plan, w.registryAt(i), i);
      if i == |plan.bound| - 1 {
        FreezeKeeps(w, k, plan, p, args);
      } else {
        ReadKeeps(w, k, plan, p, args);
      }
  }

  lemma {:induction false} PlayKeeps(w: World, k: Checks, plan: Plan, p: Progress)
    requires Tame(w, k) && PlanConstructed(k.fits, plan) && Underway(plan, p) && InStep(w, k, plan, p)
    ensures Vouched(w, k, plan, Play(w, k, plan, p))
    decreases |plan.bound| - |p.steps|
  {
    AdvanceKeeps(w, k, plan, p);
    var move := Advance(w, k, plan, p);
    if move.On? {
      PlayKeeps(w, k, plan, move.next);
    }
  }

  lemma StartInStep(w: World, k: Checks, plan: Plan)
    requires 1 <= |plan.steps| == |plan.bound|
    ensures InStep(w, k, plan, START) && Underway(plan, START)
  {
  }

  /** Whatever registry, tools and store do, the record a mission constructs is consistent and borne out by the
      world, and falls short of a pending write only for a reason found there. */
  lemma RunIsVouched(w: World, k: Checks, plan: Plan)
    requires Sane(w, k) && PlanConstructed(k.fits, plan)
    ensures Vouched(w, k, plan, Run(w, k, plan))
  {
    SaneIsTame(w, k);
    StartInStep(w, k, plan);
    PlayKeeps(w, k, plan, START);
  }

  // ----- the loop -------------------------------------------------------------------------------------

  method PrepareCall(w: World, ghost k: Checks, registry: Registry, step: ProposedStep, results: Results,
                     selected: string)
    returns (r: Result<Args, Cause>)
    requires step.tool in registry && OneBindingEach(step.bindings) && ChecksOf(w, k)
    ensures r.Ok? ==> k.calls(registry, step, results, selected, r.value)
    ensures r.Err? ==>
              && Uncallable(k, registry, step, results, selected)
              && r.error == if AllBindable(step.bindings, results, selected) then ArgumentsInvalid else ArgumentsUnbound
  {
    var raw := MaterializeArguments(w.fold, step.bindings, results, selected);
    if raw.None? {
      forall args ensures !k.calls(registry, step, results, selected, args) {
        assert CallsMeans(w, k, registry, step, results, selected, args);
        if CallArguments(w, registry, step, results, selected, args) {
          CallNeedsBindings(w, registry, step, results, selected, args);
        }
      }
      return Err(ArgumentsUnbound);
    }
    var validated := ValidateArguments(w.norm, registry[step.tool].schema, raw.value);
    if validated.Err? {
      forall args ensures !k.calls(registry, step, results, selected, args) {
        assert CallsMeans(w, k, registry, step, results, selected, args);
        if CallArguments(w, registry, step, results, selected, args) {
          CallNeedsValidation(w, registry, step, results, selected, raw.value, args);
        }
      }
      return Err(ArgumentsInvalid);
    }
    assert CallsMeans(w, k, registry, step, results, selected, validated.value);
    r := Ok(validated.value);
  }

  /** Revalidates the registry and makes the arguments of step `i`. */
  method PrepareStep(w: World, ghost k: Checks, plan: Plan, i: nat, results: Results, selected: string)
    returns (r: Result<Args, Cause>)
    requires ChecksOf(w, k) && PlanConstructed(k.fits, plan) && i < |plan.bound|
    ensures r == Preparation(w, k, plan, i, results, selected)
    ensures r.Ok? ==>
              && Matched(w.names, plan, w.registryAt(i), i)
              && k.calls(w.registryAt(i), plan.steps[i], results, selected, r.value)
    ensures r.Err? ==>
              !k.matches(plan, w.registryAt(i)) || Uncallable(k, w.registryAt(i), plan.steps[i], results, selected)
  {
    var registry := w.registryAt(i);
    var current := CheckRegistry(w.names, plan, registry, i);
    assert MatchesMeans(w, k, plan, registry);
    if !current {
      return Err(RegistryChanged);
    }
    r := PrepareCall(w, k, registry, plan.steps[i], results, selected);
    if r.Ok? {
      PreparedMatches(w, k, plan, i, results, selected);
      CallsUnique(w, k, registry, plan.steps[i], results, selected, r.value,
                  Preparation(w, k, plan, i, results, selected).value);
    }
  }

  /** Distinct tools and no failures: the budget never denies a mission step. */
  lemma {:induction false} BudgetNeverDenies(log: seq<Entry>, sig: Signature)
    requires |log| < 5 && forall j :: 0 <= j < |log| ==> log[j].outcome == Success && log[j].signature.tool != sig.tool
    ensures Allows(DEFAULT_LIMITS, log, sig) && Occurrences(log, sig) == 0
  {
    if log != [] {
      BudgetNeverDenies(log[..|log| - 1], sig);
    }
  }

  lemma {:induction false} AllSuccesses(log: seq<Entry>)
    requires forall j :: 0 <= j < |log| ==> log[j].outcome == Success
    ensures Successes(log) == |log|
  {
    if log != [] {
      AllSuccesses(log[..|log| - 1]);
    }
  }

  /** The budget's log: one success per read, each of its position's tool. */
  ghost predicate Tracks(w: World, p: Progress, log: seq<Entry>) {
    && |log| == |p.signatures|
    && forall i :: 0 <= i < |log| ==> i < |w.names| && log[i].outcome == Success && log[i].signature.tool == w.names[i]
  }

  lemma StepAllowed(w: World, k: Checks, plan: Plan, p: Progress, log: seq<Entry>, args: Args)
    requires DistinctNames(w.names) && InStep(w, k, plan, p) && Tracks(w, p, log)
    requires Matched(w.names, plan, w.registryAt(|p.steps|), |p.steps|)
    ensures Allows(DEFAULT_LIMITS, log, Signature(plan.steps[|p.steps|].tool, args))
  {
    BudgetNeverDenies(log, Signature(plan.steps[|p.steps|].tool, args));
  }

  /** Ends the mission with what the budget counted. */
  method Fail(plan: Plan, budget: ToolCallBudget, p: Progress, failure: string, failed: bool) returns (m: MissionRun)
    requires |p.steps| <= |plan.bound| && budget.Valid()
    requires |budget.log| == |p.signatures| && Successes(budget.log) == PerformedCount(p.steps)
    ensures EndEarly(plan, p, failure, failed) == Over(Ending(m, p.trace))
  {
    m := FailedRun(plan, p, budget.totalCalls, budget.executions, failure, failed);
  }

  lemma CountsAgree(w: World, k: Checks, plan: Plan, p: Progress, log: seq<Entry>)
    requires InStep(w, k, plan, p) && Tracks(w, p, log)
    ensures Successes(log) == PerformedCount(p.steps)
  {
    AllSuccesses(log);
  }

  lemma CountsPush(steps: seq<StepRun>, log: seq<Entry>, r: StepRun, e: Entry)
    requires Successes(log) == PerformedCount(steps) && (r.performed <==> e.outcome == Success)
    ensures Successes(log + [e]) == PerformedCount(steps + [r])
  {
    assert (steps + [r])[..|steps|] == steps && (log + [e])[..|log|] == log;
  }

  /** A call that failed is recorded and ends the mission. */
  method EndAfterCall(w: World, ghost k: Checks, plan: Plan, budget: ToolCallBudget, p: Progress, q: Progress,
                      r: StepRun, sig: Signature, failure: string)
    returns (m: MissionRun)
    requires budget.Valid() && InStep(w, k, plan, p) && Tracks(w, p, budget.log) && |p.steps| < |plan.bound|
    requires q.steps == p.steps + [r] && q.signatures == p.signatures + [sig]
    modifies budget
    ensures EndEarly(plan, q, failure, true) == Over(Ending(m, q.trace))
  {
    CountsAgree(w, k, plan, p, budget.log);
    CountsPush(p.steps, budget.log, r, Entry(sig, if r.performed then Success else Error));
    budget.Record(sig.tool, sig.args, if r.performed then Success else Error);
    m := Fail(plan, budget, q, failure, true);
  }

  /** The cross-checks of a read, with the verdict named by `k`. */
  method JudgeRead(w: World, ghost k: Checks, plan: Plan, i: nat, data: Args, before: Facts)
    returns (ok: bool, after: Facts)
    requires DistinctNames(w.names) && ChecksOf(w, k) && i < 4 && i < |plan.steps|
    ensures ok ==> k.judged(plan.steps[i], i, data, before, after)
    ensures !ok ==> Refused(k, plan, i, data, before) && after == k.stored(plan.steps[i], i, data, before)
  {
    ok, after := JudgeResult(w, plan.steps[i], w.names[i], i, data, before);
    if ok {
      NameJudged(w, k, plan.steps[i], i, data, before, after);
    } else {
      NameContradiction(w, k, plan.steps[i], i, data, before);
      assert StoredMeans(w, k, plan.steps[i], i, data, before);
    }
  }

  lemma NameJudged(w: World, k: Checks, step: ProposedStep, i: nat, data: Args, f: Facts, g: Facts)
    requires ChecksOf(w, k)
    ensures k.judged(step, i, data, f, g) <==> Judged(w, step, i, data, f, g)
  {
    assert JudgedMeans(w, k, step, i, data, f, g);
  }

  lemma NameContradiction(w: World, k: Checks, step: ProposedStep, i: nat, data: Args, f: Facts)
    requires ChecksOf(w, k) && Contradicts(w, step, i, data, f)
    ensures forall g :: !k.judged(step, i, data, f, g)
  {
    forall g
      ensures !k.judged(step, i, data, f, g)
    {
      NameJudged(w, k, step, i, data, f, g);
    }
  }

  lemma ReadContinues(w: World, k: Checks, plan: Plan, p: Progress, args: Args, data: Args, run: string, facts: Facts)
    requires ChecksOf(w, k) && |p.steps| < |plan.bound| == |plan.steps|
    requires w.execute(|p.steps|, plan.bound[|p.steps|].tool.name, args) == Returned(data, run)
    requires k.judged(plan.steps[|p.steps|], |p.steps|, data, p.facts, facts)
    ensures var sig := Signature(plan.bound[|p.steps|].tool.name, args);
            var record := Record(plan.bound[|p.steps|], StepSucceeded, sig, run, Some(data));
            Read(w, k, plan, p, args) == On(AfterCall(p, record, sig, facts, Some(data)))
  {
    JudgedUnique(w, k, plan.steps[|p.steps|], |p.steps|, data, p.facts, facts, Read(w, k, plan, p, args).next.facts);
  }

  /** Executes the tool once and cross-checks what it returns; `failure` names what ends the mission. */
  method CallTool(w: World, ghost k: Checks, plan: Plan, p: Progress, args: Args)
    returns (r: StepRun, q: Progress, failure: Option<string>)
    requires DistinctNames(w.names) && ChecksOf(w, k) && |p.steps| < 4
    requires Matched(w.names, plan, w.registryAt(|p.steps|), |p.steps|)
    ensures var sig := Signature(plan.bound[|p.steps|].tool.name, args);
            q.steps == p.steps + [r] && q.signatures == p.signatures + [sig] && (failure.None? ==> r.performed)
    ensures Read(w, k, plan, p, args) == if failure.Some? then EndEarly(plan, q, failure.value, true) else On(q)
  {
    var i, bound := |p.steps|, plan.bound[|p.steps|];
    var sig := Signature(bound.tool.name, args);
    var outcome := w.execute(i, bound.tool.name, args);
    if outcome.Raised? {
      r := Record(bound, StepFailed, sig, "", None);
      return r, AfterCall(p, r, sig, p.facts, None), Some(outcome.error);
    }
    var ok, after := JudgeRead(w, k, plan, i, outcome.data, p.facts);
    r := Record(bound, if ok then StepSucceeded else StepFailed, sig, outcome.run, Some(outcome.data));
    q := AfterCall(p, r, sig, after, Some(outcome.data));
    if !ok {
      return r, q, Some(w.className(ResultRejected));
    }
    ReadContinues(w, k, plan, p, args, outcome.data, outcome.run, after);
    failure := None;
  }

  /** One read: executed once, recorded, cross-checked; anything unexpected ends the mission. */
  method PerformRead(w: World, ghost k: Checks, plan: Plan, budget: ToolCallBudget, p: Progress, args: Args)
    returns (ended: Option<MissionRun>, q: Progress)
    requires DistinctNames(w.names) && ChecksOf(w, k) && budget.Valid() && InStep(w, k, plan, p)
    requires Tracks(w, p, budget.log) && |p.steps| < 4 && Matched(w.names, plan, w.registryAt(|p.steps|), |p.steps|)
    modifies budget
    ensures Read(w, k, plan, p, args) == if ended.Some? then Over(Ending(ended.value, q.trace)) else On(q)
    ensures ended.None? ==> budget.Valid() && Tracks(w, q, budget.log)
  {
    var sig := Signature(plan.bound[|p.steps|].tool.name, args);
    var r, failure;
    r, q, failure := CallTool(w, k, plan, p, args);
    if failure.Some? {
      var m := EndAfterCall(w, k, plan, budget, p, q, r, sig, failure.value);
      return Some(m), q;
    }
    budget.Record(sig.tool, args, Success);
    ended := None;
  }

  /** The last step: the write is frozen for approval, never executed. */
  method FreezeWrite(w: World, ghost k: Checks, plan: Plan, budget: ToolCallBudget, p: Progress, args: Args)
    returns (m: MissionRun, t: Trace)
    requires budget.Valid() && InStep(w, k, plan, p) && Tracks(w, p, budget.log) && |p.steps| < |plan.bound|
    modifies budget
    ensures Freeze(w, plan, p, args) == Over(Ending(m, t))
  {
    t := p.trace;
    var bound := plan.bound[|p.steps|];
    var sig := Signature(bound.tool.name, args);
    CountsAgree(w, k, plan, p, budget.log);
    var created := w.freeze(bound.tool.name, bound.tool.version, args);
    match created
    case Err(error) =>
      var record := Record(bound, StepFailed, sig, "", None);
      var q := Progress(p.steps + [record], p.signatures + [sig], p.facts, p.trace);
      m := EndAfterCall(w, k, plan, budget, p, q, record, sig, error);
    case Ok(id) =>
      var op := PendingOperation(id, "pending", bound.tool.name, bound.tool.version, args);
      m := MissionRun(plan, ApprovalPending, p.steps + [Record(bound, StepPending, sig, "", None)], |p.signatures| + 1,
                      budget.executions, p.signatures + [sig], p.facts, Some(op), "");
      t := p.trace.(frozen := [sig]);
  }

  /** Runs step `|p.steps|`: either the mission ends with a record, or one more read is in. */
  method MissionStep(w: World, ghost k: Checks, plan: Plan, budget: ToolCallBudget, p: Progress, results: Results)
    returns (ended: Option<MissionRun>, q: Progress)
    requires Sane(w, k) && PlanConstructed(k.fits, plan) && budget.Valid() && budget.limits == DEFAULT_LIMITS
    requires Underway(plan, p) && InStep(w, k, plan, p) && Tracks(w, p, budget.log)
    requires results == ResultsOf(plan, p.trace.data)
    modifies budget
    ensures Advance(w, k, plan, p) == if ended.Some? then Over(Ending(ended.value, q.trace)) else On(q)
    ensures ended.None? ==> budget.Valid() && Tracks(w, q, budget.log)
  {
    var i := |p.steps|;
    var prepared := PrepareStep(w, k, plan, i, results, p.facts.selected);
    if prepared.Err? {
      CountsAgree(w, k, plan, p, budget.log);
      var m := Fail(plan, budget, p, w.className(prepared.error), false);
      return Some(m), p;
    }
    var args := prepared.value;
    StepAllowed(w, k, plan, p, budget.log, args);
    var allowed := budget.AllowCall(plan.steps[i].tool, args);
    assert allowed;
    if i == |plan.bound| - 1 {
      var m, t := FreezeWrite(w, k, plan, budget, p, args);
      return Some(m), p.(trace := t);
    }
    ended, q := PerformRead(w, k, plan, budget, p, args);
  }

  lemma ResultsGrow(plan: Plan, before: seq<Args>, after: seq<Args>)
    requires |after| == |before| + 1 <= |plan.steps| && after[..|before|] == before
    ensures ResultsOf(plan, after) == ResultsOf(plan, before)[plan.steps[|before|].id := after[|before|]]
  {
  }

  lemma DataGrows(w: World, k: Checks, plan: Plan, p: Progress)
    requires Underway(plan, p) && Advance(w, k, plan, p).On?
    ensures var q := Advance(w, k, plan, p).next;
            |q.trace.data| == |p.trace.data| + 1 && q.trace.data[..|p.trace.data|] == p.trace.data
  {
  }

  /** Runs the four reads and freezes the write; registry, tools and store are arbitrary. The mission returns its
      record exactly when the constructor accepts it, and raises otherwise. */
  method RunCompositionMission(w: World, ghost k: Checks, plan: Plan) returns (r: Option<MissionRun>, t: Trace)
    requires Sane(w, k) && PlanConstructed(k.fits, plan)
    ensures t == Run(w, k, plan).trace && Vouched(w, k, plan, Run(w, k, plan))
    ensures var m := Run(w, k, plan).record;
            r == if Accepted(w, k.fits, w.names[4], m) then Some(m) else None
  {
    var budget := new ToolCallBudget(DEFAULT_LIMITS);
    var results: Results := map[];
    var p := START;
    SaneIsTame(w, k);
    StartInStep(w, k, plan);
    RunIsVouched(w, k, plan);
    for i := 0 to |plan.bound|
      invariant budget.Valid() && fresh(budget) && budget.limits == DEFAULT_LIMITS
      invariant |p.steps| == i < |plan.bound| && Underway(plan, p) && InStep(w, k, plan, p)
      invariant Tracks(w, p, budget.log) && results == ResultsOf(plan, p.trace.data)
      invariant Run(w, k, plan) == Play(w, k, plan, p)
    {
      AdvanceKeeps(w, k, plan, p);
      var ended, q := MissionStep(w, k, plan, budget, p, results);
      if ended.Some? {
        r := if Printed(w, ended.value) then ended else None;
        return r, q.trace;
      }
      DataGrows(w, k, plan, p);
      ResultsGrow(plan, p.trace.data, q.trace.data);
      results := results[plan.steps[i].id := q.trace.data[i]];
      p := q;
    }
    assert false;
  }

  lemma LastJudgement(w: World, k: Checks, steps: seq<ProposedStep>, data: seq<Args>, f: Facts) returns (g: Facts)
    requires 0 < |data| <= |steps| && Evidence(k, steps, data, f) && ChecksOf(w, k)
    ensures Evidence(k, steps, data[..|data| - 1], g)
    ensures Judged(w, steps[|data| - 1], |data| - 1, data[|data| - 1], g, f)
  {
    var earlier := data[..|data| - 1];
    g :| Evidence(k, steps, earlier, g) && k.judged(steps[|earlier|], |earlier|, data[|data| - 1], g, f);
    assert JudgedMeans(w, k, steps[|data| - 1], |data| - 1, data[|data| - 1], g, f);
  }

  /** Four accepted results: each was judged, and together they led to `f`. */
  lemma FourJudgements(w: World, k: Checks, steps: seq<ProposedStep>, data: seq<Args>, f: Facts)
    returns (f1: Facts, f2: Facts, f3: Facts)
    requires |data| == 4 <= |steps| && Evidence(k, steps, data, f) && ChecksOf(w, k)
    ensures Judged(w, steps[0], 0, data[0], NOTHING, f1) && Judged(w, steps[1], 1, data[1], f1, f2)
    ensures Judged(w, steps[2], 2, data[2], f2, f3) && Judged(w, steps[3], 3, data[3], f3, f)
  {
    var d3, d2, d1 := data[..3], data[..2], data[..1];
    assert d3[..2] == d2 && d2[..1] == d1;
    f3 := LastJudgement(w, k, steps, data, f);
    f2 := LastJudgement(w, k, steps, d3, f3);
    f1 := LastJudgement(w, k, steps, d2, f2);
    var f0 := LastJudgement(w, k, steps, d1, f1);
  }

  /** Accepted evidence agrees: the project is the selected one, and the summary count, the list count and the
      listed open tasks all agree on it. */
  lemma EvidenceAgrees(w: World, k: Checks, steps: seq<ProposedStep>, data: seq<Args>, f: Facts)
    requires |data| == 4 <= |steps| && Evidence(k, steps, data, f) && ChecksOf(w, k)
    ensures OverviewAccepted(w.fold, data[0], f.selected) && SummaryAccepted(data[1], f.selected, f.open)
    ensures ListAccepted(data[2], f.selected, f.open, f.listed) && SearchAccepted(data[3], f.selected, f.memories)
  {
    var f1, f2, f3 := FourJudgements(w, k, steps, data, f);
    FourLessons(w.fold, data, f1, f2, f3, f);
  }

  /** Every accepted result had its declared outputs and kept within the size limit. */
  lemma {:induction false} EvidenceAdmissible(w: World, k: Checks, steps: seq<ProposedStep>, data: seq<Args>, f: Facts,
                                              i: nat)
    requires i < |data| <= |steps| && Evidence(k, steps, data, f) && ChecksOf(w, k)
    ensures ResultAdmissible(w, steps[i], data[i])
    decreases |data|
  {
    var g := LastJudgement(w, k, steps, data, f);
    if i < |data| - 1 {
      EvidenceAdmissible(w, k, steps, data[..|data| - 1], g, i);
    }
  }

  lemma FourLessons(fold: string -> string, data: seq<Args>, f1: Facts, f2: Facts, f3: Facts, f: Facts)
    requires |data| == 4 && Learns(fold, 0, data[0], NOTHING, f1) && Learns(fold, 1, data[1], f1, f2)
    requires Learns(fold, 2, data[2], f2, f3) && Learns(fold, 3, data[3], f3, f)
    ensures OverviewAccepted(fold, data[0], f.selected) && SummaryAccepted(data[1], f.selected, f.open)
    ensures ListAccepted(data[2], f.selected, f.open, f.listed) && SearchAccepted(data[3], f.selected, f.memories)
  {
  }

  /** Call `j` ran on arguments bound from the results before it and validated, and the record holds them. */
  ghost predicate RanOnBoundArguments(w: World, plan: Plan, m: MissionRun, t: Trace, j: nat) {
    && j < |t.executed| && j <= |t.data| <= |plan.steps| && j < |plan.steps| && j < |m.steps|
    && CallArguments(w, w.registryAt(j), plan.steps[j], ResultsOf(plan, t.data[..j]),
                     if j == 0 then "" else m.facts.selected, t.executed[j].args)
    && m.steps[j].argsDigest == Some(t.executed[j].args) && m.steps[j].signature == Some(t.executed[j])
  }

  /** Whatever becomes of a mission, each call it made ran on the arguments bound and validated for it. */
  lemma CallsAreBound(w: World, k: Checks, plan: Plan, m: MissionRun, t: Trace, j: nat)
    requires ChecksOf(w, k) && Promised(w, k, plan, m, t) && j < |t.executed|
    ensures RanOnBoundArguments(w, plan, m, t, j)
  {
    assert CalledAt(w, k, plan, t, j, m.facts.selected) && StepShows(w, m.steps[j], j, t.executed[j]);
    assert CallsMeans(w, k, w.registryAt(j), plan.steps[j], ResultsOf(plan, t.data[..j]),
                      if j == 0 then "" else m.facts.selected, t.executed[j].args);
  }

  /** Read back from a pending record: four reads ran, one write was frozen with arguments bound
      from their results, and the evidence agrees. */
  lemma PendingMeansAgreement(w: World, k: Checks, plan: Plan, m: MissionRun, t: Trace)
    requires Sane(w, k) && Promised(w, k, plan, m, t) && m.status == ApprovalPending
    ensures |t.data| == |t.executed| == 4 && |t.frozen| == 1 && |plan.steps| == 5
    ensures OverviewAccepted(w.fold, t.data[0], m.facts.selected)
    ensures SummaryAccepted(t.data[1], m.facts.selected, m.facts.open)
    ensures ListAccepted(t.data[2], m.facts.selected, m.facts.open, m.facts.listed)
    ensures SearchAccepted(t.data[3], m.facts.selected, m.facts.memories)
    ensures forall i :: 0 <= i < 4 ==> ResultAdmissible(w, plan.steps[i], t.data[i])
    ensures CallArguments(w, w.registryAt(4), plan.steps[4], ResultsOf(plan, t.data), m.facts.selected,
                          t.frozen[0].args)
    ensures forall j :: 0 <= j < 4 ==> RanOnBoundArguments(w, plan, m, t, j)
  {
    forall j | 0 <= j < 4
      ensures RanOnBoundArguments(w, plan, m, t, j)
    {
      CallsAreBound(w, k, plan, m, t, j);
    }
    EvidenceAgrees(w, k, plan.steps, t.data, m.facts);
    forall i | 0 <= i < 4
      ensures ResultAdmissible(w, plan.steps[i], t.data[i])
    {
      EvidenceAdmissible(w, k, plan.steps, t.data, m.facts, i);
    }
    assert CallsMeans(w, k, w.registryAt(4), plan.steps[4], ResultsOf(plan, t.data), m.facts.selected,
                      t.frozen[0].args);
  }

  /** The checks the loop is parametrised by exist for every world. */
  lemma ChecksExist(w: World) returns (k: Checks)
    ensures ChecksOf(w, k)
  {
    k := Checks((s: string, n: nat) => BoundedText(s, n),
                (step: ProposedStep, i: nat, data: Args, f: Facts, g: Facts) => Judged(w, step, i, data, f, g),
                (step: ProposedStep, i: nat, data: Args, f: Facts) => Stored(w, step, i, data, f),
                (r, step, results, selected, args) => CallArguments(w, r, step, results, selected, args),
                (plan, r) => RegistryMatches(w.names, plan, r));
  }
}
