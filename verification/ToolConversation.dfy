/** The bounded model/tool loop of one chat turn (backend/tool_conversation.py),
    run against an arbitrary provider and arbitrary tools. */
module ToolConversation {
  import opened PyText
  import opened Json
  import opened Validation
  import opened Tools
  import opened ToolBudget

  datatype Request = Request(tool: string, arguments: Args, callId: string)

  datatype Note = SkippedByBudget | NoSuchTool | InvalidArguments | HighRiskRefused | ToolRefused | Completed

  datatype ToolResult = ToolResult(success: bool, tool: string, data: Option<Value>, callId: string, note: Note)

  datatype Round = Round(requests: seq<Request>, results: seq<ToolResult>)

  datatype Turn = Final(text: string) | ToolCalls(requests: seq<Request>) | ProviderFails

  /** The model, as a function of everything it has been shown this turn. */
  type Provider = seq<Round> -> Turn

  /** One `execute_tool` call: it returns data, raises a tool error, or breaks for storage reasons. */
  datatype Execution = Done(data: Value) | Refused | Broken

  type Executor = (nat, string, Args) -> Execution

  /** A call handed to `execute_tool`: the validated arguments and the raw ones requested. */
  datatype Executed = Executed(tool: string, args: Args, raw: Args)

  datatype World = World(norm: Normaliser, registry: Registry, execute: Executor,
                         freeze: (string, Args) -> Option<string>)

  datatype Ending = Answer(text: string) | ApprovalRequired(operation: string, call: Signature) | Raised

  const FALLBACK :=
    "MootOS stopped after reaching the maximum number of actions allowed for one turn. "
    + "Ask again if you would like MootOS to continue."

  // ----- what is counted ------------------------------------------------------

  function Ran(es: seq<Executed>, sig: Signature): nat {
    if es == [] then 0
    else Ran(es[..|es| - 1], sig) + (if Signature(es[|es| - 1].tool, es[|es| - 1].args) == sig then 1 else 0)
  }

  /** Executions whose request already had the validated spelling. */
  function RanAsSpelled(es: seq<Executed>, sig: Signature): nat {
    if es == [] then 0
    else
      var e := es[|es| - 1];
      RanAsSpelled(es[..|es| - 1], sig) + (if Signature(e.tool, e.args) == sig && e.raw == e.args then 1 else 0)
  }

  function RanRespelled(es: seq<Executed>, sig: Signature): nat {
    if es == [] then 0
    else
      var e := es[|es| - 1];
      RanRespelled(es[..|es| - 1], sig) + (if Signature(e.tool, e.args) == sig && e.raw != e.args then 1 else 0)
  }

  lemma {:induction false} RanSplits(es: seq<Executed>, sig: Signature)
    ensures Ran(es, sig) == RanAsSpelled(es, sig) + RanRespelled(es, sig)
    ensures (forall e :: e in es ==> e.raw == e.args) ==> RanRespelled(es, sig) == 0
  {
    if es != [] {
      RanSplits(es[..|es| - 1], sig);
      assert es == es[..|es| - 1] + [es[|es| - 1]];
    }
  }

  /** Only read-only tools run, and only on arguments their schema accepted. */
  ghost predicate ReadsOnly(w: World, es: seq<Executed>) {
    forall e :: e in es ==>
      && e.tool in w.registry && w.registry[e.tool].risk == ReadOnly
      && Validate(w.norm, w.registry[e.tool].schema, e.raw) == Ok(e.args)
  }

  /** The books agree: everything executed so far has been recorded. */
  ghost predicate Accounted(log: seq<Entry>, es: seq<Executed>) {
    && |es| <= |log| && |es| <= DEFAULT_LIMITS.maxCalls
    && (forall sig :: RanAsSpelled(es, sig) <= Occurrences(log, sig))
    && (forall sig :: RanAsSpelled(es, sig) <= DEFAULT_LIMITS.maxIdentical)
  }

  /** The same bounds when the last execution broke before it was recorded. */
  ghost predicate Bounded(es: seq<Executed>) {
    |es| <= DEFAULT_LIMITS.maxCalls && forall sig :: RanAsSpelled(es, sig) <= DEFAULT_LIMITS.maxIdentical
  }

  ghost predicate Normalised(w: World, r: Request) {
    r.tool in w.registry ==>
      var v := Validate(w.norm, w.registry[r.tool].schema, r.arguments); v.Ok? ==> v.value == r.arguments
  }

  /** One result per request, in order, with the request's call id. */
  ghost predicate Answers(requests: seq<Request>, results: seq<ToolResult>) {
    && |results| == |requests|
    && (forall i :: 0 <= i < |results| ==>
             results[i].callId == requests[i].callId && results[i].tool == requests[i].tool)
  }

  lemma RecordKeepsAccounts(log: seq<Entry>, es: seq<Executed>, e: Entry)
    requires Accounted(log, es)
    ensures Accounted(log + [e], es)
  {
    assert (log + [e])[..|log|] == log;
  }

  /** An allowed execution stays within the bounds, and within the books once recorded. */
  lemma ExecutionKeepsAccounts(log: seq<Entry>, es: seq<Executed>, x: Executed, outcome: Outcome)
    requires Accounted(log, es) && Allows(DEFAULT_LIMITS, log, Signature(x.tool, x.raw))
    ensures Bounded(es + [x])
    ensures Accounted(log + [Entry(Signature(x.tool, x.args), outcome)], es + [x])
  {
    assert (es + [x])[..|es|] == es;
    assert (log + [Entry(Signature(x.tool, x.args), outcome)])[..|log|] == log;
  }

  // ----- one request ----------------------------------------------------------

  datatype Step = Continue(result: ToolResult) | Stop(ending: Ending)

  function Failing(r: Request, note: Note): Step {
    Continue(ToolResult(false, r.tool, None, r.callId, note))
  }

  /** What happens to a request under a budget log. */
  datatype Fate = Refuse(note: Note, entry: Entry) | Freeze(args: Args) | Execute(args: Args)

  function FateOf(w: World, log: seq<Entry>, r: Request): Fate {
    var raw := Signature(r.tool, r.arguments);
    if !Allows(DEFAULT_LIMITS, log, raw) then Refuse(SkippedByBudget, Entry(raw, Skipped))
    else if r.tool !in w.registry then Refuse(NoSuchTool, Entry(raw, UnknownTool))
    else
      match Validate(w.norm, w.registry[r.tool].schema, r.arguments)
      case Err(_) => Refuse(InvalidArguments, Entry(raw, Error))
      case Ok(args) =>
        match w.registry[r.tool].risk
        case HighRisk => Refuse(HighRiskRefused, Entry(Signature(r.tool, args), Error))
        case InternalWrite => Freeze(args)
        case ReadOnly => Execute(args)
  }

  /** Decides one request; nothing is executed or recorded yet. */
  method Decide(w: World, budget: ToolCallBudget, request: Request) returns (fate: Fate)
    requires budget.Valid() && budget.limits == DEFAULT_LIMITS
    ensures fate == FateOf(w, budget.log, request)
  {
    var raw := Signature(request.tool, request.arguments);
    var allowed := budget.AllowCall(request.tool, request.arguments);
    if !allowed {
      return Refuse(SkippedByBudget, Entry(raw, Skipped));
    }
    if request.tool !in w.registry {
      return Refuse(NoSuchTool, Entry(raw, UnknownTool));
    }
    var tool := w.registry[request.tool];
    var validated := ValidateArguments(w.norm, tool.schema, request.arguments);
    if validated.Err? {
      return Refuse(InvalidArguments, Entry(raw, Error));
    }
    if tool.risk == HighRisk {
      return Refuse(HighRiskRefused, Entry(Signature(request.tool, validated.value), Error));
    }
    fate := if tool.risk == InternalWrite then Freeze(validated.value) else Execute(validated.value);
  }

  /** What a fate says about the request. */
  lemma FateFacts(w: World, log: seq<Entry>, r: Request)
    ensures var fate := FateOf(w, log, r);
            && (!fate.Refuse? ==>
                  && Allows(DEFAULT_LIMITS, log, Signature(r.tool, r.arguments)) && r.tool in w.registry
                  && Validate(w.norm, w.registry[r.tool].schema, r.arguments) == Ok(fate.args)
                  && w.registry[r.tool].risk == (if fate.Freeze? then InternalWrite else ReadOnly)
                  && (Normalised(w, r) ==> fate.args == r.arguments))
            && (fate.Refuse? ==> fate.entry.signature.tool == r.tool && fate.entry.outcome != Success)
  {
  }

  /** The requests recorded and the calls executed so far. */
  datatype Books = Books(log: seq<Entry>, executed: seq<Executed>)

  ghost predicate Sound(w: World, b: Books) {
    Accounted(b.log, b.executed) && ReadsOnly(w, b.executed)
  }

  datatype Played = Played(step: Step, books: Books)

  /** One request: what the model is told and what the books then say. */
  function PlayRequest(w: World, b: Books, r: Request): Played {
    match FateOf(w, b.log, r)
    case Refuse(note, entry) => Played(Failing(r, note), b.(log := b.log + [entry]))
    case Freeze(args) =>
      var operation := w.freeze(r.tool, args);
      Played(Stop(if operation.None? then Raised else ApprovalRequired(operation.value, Signature(r.tool, args))), b)
    case Execute(args) => AfterExecution(b, r, args, w.execute(|b.executed|, r.tool, args))
  }

  /** An executed call is recorded under its validated arguments, unless storage broke on the way. */
  function AfterExecution(b: Books, r: Request, args: Args, outcome: Execution): Played {
    var executed := b.executed + [Executed(r.tool, args, r.arguments)];
    match outcome
    case Broken => Played(Stop(Raised), b.(executed := executed))
    case Refused => Played(Failing(r, ToolRefused), Books(b.log + [Entry(Signature(r.tool, args), Error)], executed))
    case Done(data) =>
      Played(Continue(ToolResult(true, r.tool, Some(data), r.callId, Completed)),
             Books(b.log + [Entry(Signature(r.tool, args), Success)], executed))
  }

  method ProcessRequest(w: World, budget: ToolCallBudget, request: Request, executed: seq<Executed>)
    returns (step: Step, executed': seq<Executed>, frozen: seq<Signature>)
    requires budget.Valid() && budget.limits == DEFAULT_LIMITS
    modifies budget
    ensures budget.Valid()
    ensures Played(step, Books(budget.log, executed')) == PlayRequest(w, Books(old(budget.log), executed), request)
    ensures frozen == if step.Stop? && step.ending.ApprovalRequired? then [step.ending.call] else []
  {
    frozen, executed' := [], executed;
    FateFacts(w, budget.log, request);
    var fate := Decide(w, budget, request);
    match fate
    case Refuse(note, entry) =>
      budget.Record(request.tool, entry.signature.args, entry.outcome);
      step := Failing(request, note);
    case Freeze(args) =>
      var operation := w.freeze(request.tool, args);
      if operation.None? {
        step := Stop(Raised);
      } else {
        step := Stop(ApprovalRequired(operation.value, Signature(request.tool, args)));
        frozen := [Signature(request.tool, args)];
      }
    case Execute(args) =>
      var outcome := w.execute(|executed|, request.tool, args);
      executed' := executed + [Executed(request.tool, args, request.arguments)];
      match outcome
      case Broken => step := Stop(Raised);
      case Refused =>
        budget.Record(request.tool, args, Error);
        step := Failing(request, ToolRefused);
      case Done(data) =>
        budget.Record(request.tool, args, Success);
        step := Continue(ToolResult(true, request.tool, Some(data), request.callId, Completed));
  }

  /** One more execution at most, in the requested spelling if that was already valid. */
  ghost predicate OneMore(w: World, r: Request, before: seq<Executed>, after: seq<Executed>) {
    after == before || exists e :: after == before + [e] && (Normalised(w, r) ==> e.raw == e.args)
  }

  /** Whatever happens to a request: only reads run, the bounds hold, and unless the turn stops there is one
      more record and one result with the request's call id. */
  lemma RequestPromises(w: World, b: Books, r: Request)
    requires Sound(w, b)
    ensures var p := PlayRequest(w, b, r);
            && Bounded(p.books.executed) && ReadsOnly(w, p.books.executed) && OneMore(w, r, b.executed,
                                                                                      p.books.executed)
            && (p.step.Continue? ==>
                  && |p.books.log| == |b.log| + 1 && Sound(w, p.books)
                  && p.step.result.callId == r.callId && p.step.result.tool == r.tool)
            && (p.step.Stop? ==> !p.step.ending.Answer?)
            && (p.step.Stop? && p.step.ending.ApprovalRequired? ==>
                  p.step.ending.call.tool in w.registry && w.registry[p.step.ending.call.tool].risk == InternalWrite)
  {
    FateFacts(w, b.log, r);
    match FateOf(w, b.log, r)
    case Refuse(_, entry) => RecordKeepsAccounts(b.log, b.executed, entry);
    case Freeze(_) =>
    case Execute(args) => ExecutionPromises(w, b, r, args, w.execute(|b.executed|, r.tool, args));
  }

  lemma ExecutionPromises(w: World, b: Books, r: Request, args: Args, outcome: Execution)
    requires Sound(w, b) && Allows(DEFAULT_LIMITS, b.log, Signature(r.tool, r.arguments))
    requires r.tool in w.registry && w.registry[r.tool].risk == ReadOnly
    requires Validate(w.norm, w.registry[r.tool].schema, r.arguments) == Ok(args)
    ensures var p := AfterExecution(b, r, args, outcome);
            && Bounded(p.books.executed) && ReadsOnly(w, p.books.executed)
            && p.books.executed == b.executed + [Executed(r.tool, args, r.arguments)]
            && (p.step.Continue? ==>
                  && |p.books.log| == |b.log| + 1 && Sound(w, p.books)
                  && p.step.result.callId == r.callId && p.step.result.tool == r.tool)
            && (p.step.Stop? ==> p.step.ending.Raised?)
  {
    var x := Executed(r.tool, args, r.arguments);
    ExecutionKeepsAccounts(b.log, b.executed, x, if outcome.Done? then Success else Error);
  }

  // ----- one round ------------------------------------------------------------

  datatype PlayedRound = PlayedRound(ending: Option<Ending>, results: seq<ToolResult>, books: Books)

  /** The requests in order, until one stops the turn. */
  function PlayRound(w: World, b: Books, requests: seq<Request>): PlayedRound {
    if requests == [] then PlayedRound(None, [], b)
    else
      var was := PlayRound(w, b, requests[..|requests| - 1]);
      if was.ending.Some? then was else AddRequest(w, was, requests[|requests| - 1])
  }

  function AddRequest(w: World, was: PlayedRound, r: Request): PlayedRound {
    var p := PlayRequest(w, was.books, r);
    match p.step
    case Continue(result) => PlayedRound(None, was.results + [result], p.books)
    case Stop(ending) => PlayedRound(Some(ending), was.results, p.books)
  }

  lemma {:induction false} RoundStops(w: World, b: Books, requests: seq<Request>, n: nat)
    requires n <= |requests| && PlayRound(w, b, requests[..n]).ending.Some?
    ensures PlayRound(w, b, requests) == PlayRound(w, b, requests[..n])
    decreases |requests|
  {
    if n == |requests| {
      assert requests[..n] == requests;
    } else {
      assert requests[..|requests| - 1][..n] == requests[..n];
      RoundStops(w, b, requests[..|requests| - 1], n);
    }
  }

  method ProcessRound(w: World, budget: ToolCallBudget, requests: seq<Request>, executed: seq<Executed>)
    returns (ending: Option<Ending>, results: seq<ToolResult>, executed': seq<Executed>, frozen: seq<Signature>)
    requires budget.Valid() && budget.limits == DEFAULT_LIMITS
    modifies budget
    ensures budget.Valid()
    ensures PlayedRound(ending, results, Books(budget.log, executed')) == PlayRound(w, Books(old(budget.log), executed),
                                                                                    requests)
    ensures frozen == if ending.Some? && ending.value.ApprovalRequired? then [ending.value.call] else []
  {
    ghost var b := Books(budget.log, executed);
    results, executed', frozen := [], executed, [];
    for i := 0 to |requests|
      invariant budget.Valid() && frozen == []
      invariant PlayRound(w, b, requests[..i]) == PlayedRound(None, results, Books(budget.log, executed'))
    {
      assert requests[..i + 1][..i] == requests[..i];
      var step, more, now := ProcessRequest(w, budget, requests[i], executed');
      executed' := more;
      match step
      case Stop(e) =>
        RoundStops(w, b, requests, i + 1);
        return Some(e), results, executed', now;
      case Continue(result) => results := results + [result];
    }
    assert requests[..|requests|] == requests;
    ending := None;
  }

  ghost predicate Extends(w: World, requests: seq<Request>, before: seq<Executed>, after: seq<Executed>) {
    && before <= after
    && ((forall r :: r in requests ==> Normalised(w, r)) ==>
          forall i :: |before| <= i < |after| ==> after[i].raw == after[i].args)
  }

  lemma ExtendsPush(w: World, requests: seq<Request>, r: Request, a: seq<Executed>, b: seq<Executed>, c: seq<Executed>)
    requires Extends(w, requests, a, b) && OneMore(w, r, b, c)
    ensures Extends(w, requests + [r], a, c)
  {
    assert r in requests + [r];
    assert forall q :: q in requests ==> q in requests + [r];
  }

  /** What a round promises: one result per request unless the turn stops, and the bounds in any case. */
  lemma {:induction false} RoundPromises(w: World, b: Books, requests: seq<Request>)
    requires Sound(w, b)
    ensures var p := PlayRound(w, b, requests);
            && Bounded(p.books.executed) && ReadsOnly(w, p.books.executed)
            && Extends(w, requests, b.executed, p.books.executed)
            && (p.ending.None? ==>
                  Sound(w, p.books) && Answers(requests, p.results) && |p.books.log| == |b.log| + |requests|)
            && (p.ending.Some? ==> !p.ending.value.Answer?)
            && (p.ending.Some? && p.ending.value.ApprovalRequired? ==>
                  p.ending.value.call.tool in w.registry && w.registry[p.ending.value.call.tool].risk == InternalWrite)
  {
    if requests != [] {
      var front, r := requests[..|requests| - 1], requests[|requests| - 1];
      assert requests == front + [r];
      RoundPromises(w, b, front);
      var was := PlayRound(w, b, front);
      if was.ending.None? {
        RequestPromises(w, was.books, r);
        ExtendsPush(w, front, r, b.executed, was.books.executed, AddRequest(w, was, r).books.executed);
      } else {
        ExtendsPush(w, front, r, b.executed, was.books.executed, was.books.executed);
      }
    }
  }

  // ----- the whole turn ---------------------------------------------------------

  datatype Trace = Trace(rounds: seq<Round>, executed: seq<Executed>, frozen: seq<Signature>)

  /** Providers announce tool calls only when there are some. */
  ghost predicate NonEmptyCalls(provider: Provider) {
    forall h :: provider(h).ToolCalls? ==> provider(h).requests != []
  }

  ghost predicate AlwaysNormalised(w: World, provider: Provider) {
    forall h :: provider(h).ToolCalls? ==> forall r :: r in provider(h).requests ==> Normalised(w, r)
  }

  /** The provider's own closing words, or the fixed notice when it has none. */
  function ClosingText(closing: Provider, rounds: seq<Round>): string {
    match closing(rounds)
    case Final(t) => if t != "" then t else FALLBACK
    case _ => FALLBACK
  }

  /** Each completed round carries the requests the provider made at that point and one answer to each. */
  ghost predicate Faithful(provider: Provider, rounds: seq<Round>) {
    && (forall i :: 0 <= i < |rounds| ==> Answers(rounds[i].requests, rounds[i].results))
    && (forall i :: 0 <= i < |rounds| ==> provider(rounds[..i]) == ToolCalls(rounds[i].requests))
  }

  lemma FaithfulPush(provider: Provider, rounds: seq<Round>, round: Round)
    requires Faithful(provider, rounds) && Answers(round.requests, round.results)
    requires provider(rounds) == ToolCalls(round.requests)
    ensures Faithful(provider, rounds + [round])
  {
    var all := rounds + [round];
    assert forall i :: 0 <= i < |rounds| ==> all[..i] == rounds[..i];
    assert all[..|rounds|] == rounds;
  }

  datatype PlayedTurn = PlayedTurn(ending: Ending, rounds: seq<Round>, executed: seq<Executed>)

  const OPENING := Books([], [])

  /** The turn from any point of it, as a function of provider and world. */
  ghost function PlayTurn(w: World, provider: Provider, closing: Provider, rounds: seq<Round>, b: Books): PlayedTurn
    requires NonEmptyCalls(provider) && |b.log| < DEFAULT_LIMITS.maxCalls
    decreases DEFAULT_LIMITS.maxCalls - |b.log|
  {
    match provider(rounds)
    case Final(text) => PlayedTurn(Answer(text), rounds, b.executed)
    case ProviderFails => PlayedTurn(Raised, rounds, b.executed)
    case ToolCalls(requests) =>
      var p := PlayRound(w, b, requests);
      var more := rounds + [Round(requests, p.results)];
      if p.ending.Some? then PlayedTurn(p.ending.value, rounds, p.books.executed)
      else if !AllowsNext(DEFAULT_LIMITS, p.books.log) then
        PlayedTurn(Answer(ClosingText(closing, more)), more, p.books.executed)
      else
        RoundRecords(w, b, requests);
        PlayTurn(w, provider, closing, more, p.books)
  }

  /** A completed round records every request. */
  lemma {:induction false} RoundRecords(w: World, b: Books, requests: seq<Request>)
    ensures var p := PlayRound(w, b, requests); p.ending.None? ==> |p.books.log| == |b.log| + |requests|
  {
    if requests != [] {
      RoundRecords(w, b, requests[..|requests| - 1]);
    }
  }

  /** What every turn promises, against every provider. */
  ghost predicate Kept(w: World, provider: Provider, closing: Provider, out: PlayedTurn) {
    && |out.rounds| <= DEFAULT_LIMITS.maxCalls && Bounded(out.executed) && ReadsOnly(w, out.executed)
    && Faithful(provider, out.rounds)
    && (out.ending.ApprovalRequired? ==>
          out.ending.call.tool in w.registry && w.registry[out.ending.call.tool].risk == InternalWrite)
    && (out.ending.Answer? ==>
          || provider(out.rounds) == Final(out.ending.text)
          || (out.rounds != [] && out.ending.text == ClosingText(closing, out.rounds)))
    && (AlwaysNormalised(w, provider) ==> AsSpelled(out.executed))
  }

  ghost predicate AsSpelled(es: seq<Executed>) {
    forall e :: e in es ==> e.raw == e.args
  }

  lemma {:induction false} TurnPromises(w: World, provider: Provider, closing: Provider, rounds: seq<Round>, b: Books)
    requires NonEmptyCalls(provider) && Sound(w, b) && |rounds| <= |b.log| < DEFAULT_LIMITS.maxCalls
    requires Faithful(provider, rounds) && (AlwaysNormalised(w, provider) ==> AsSpelled(b.executed))
    ensures Kept(w, provider, closing, PlayTurn(w, provider, closing, rounds, b))
    decreases DEFAULT_LIMITS.maxCalls - |b.log|
  {
    if provider(rounds).ToolCalls? {
      var requests := provider(rounds).requests;
      RoundPromises(w, b, requests);
      var p := PlayRound(w, b, requests);
      SpelledOn(w, provider, requests, rounds, b.executed, p.books.executed);
      if p.ending.None? {
        FaithfulPush(provider, rounds, Round(requests, p.results));
        if AllowsNext(DEFAULT_LIMITS, p.books.log) {
          TurnPromises(w, provider, closing, rounds + [Round(requests, p.results)], p.books);
        }
      }
    }
  }

  lemma SpelledOn(w: World, provider: Provider, requests: seq<Request>, rounds: seq<Round>, a: seq<Executed>,
                  b: seq<Executed>)
    requires provider(rounds) == ToolCalls(requests) && Extends(w, requests, a, b)
    requires AlwaysNormalised(w, provider) ==> AsSpelled(a)
    ensures AlwaysNormalised(w, provider) ==> AsSpelled(b)
  {
    if AlwaysNormalised(w, provider) {
      assert forall r :: r in requests ==> Normalised(w, r);
      forall e | e in b
        ensures e.raw == e.args
      {
        var i :| 0 <= i < |b| && b[i] == e;
        if i < |a| {
          assert a[i] in a;
        }
      }
    }
  }

  lemma OpeningPromises(w: World, provider: Provider, closing: Provider)
    requires NonEmptyCalls(provider)
    ensures Kept(w, provider, closing, PlayTurn(w, provider, closing, [], OPENING))
  {
    TurnPromises(w, provider, closing, [], OPENING);
  }

  /** One provider-backed chat turn. `plain` answers when tools are not engaged,
      `closing` when the provider is asked to finish without tools. */
  method RunToolConversation(w: World, provider: Provider, closing: Provider, plain: Option<string>,
                             supportsTools: bool)
    returns (ending: Ending, trace: Trace)
    requires NonEmptyCalls(provider)
    ensures |trace.rounds| <= 5 && |trace.executed| <= 5
    ensures ReadsOnly(w, trace.executed)
    ensures Faithful(provider, trace.rounds)
    ensures ending.ApprovalRequired? ==>
              ending.call.tool in w.registry && w.registry[ending.call.tool].risk == InternalWrite
    ensures w.registry != map[] && supportsTools ==>
              PlayedTurn(ending, trace.rounds, trace.executed) == PlayTurn(w, provider, closing, [], OPENING)
    ensures w.registry != map[] && supportsTools && ending.Answer? ==>
              || provider(trace.rounds) == Final(ending.text)
              || (trace.rounds != [] && ending.text == ClosingText(closing, trace.rounds))
    ensures trace.frozen == if ending.ApprovalRequired? then [ending.call] else []
    ensures forall sig :: Ran(trace.executed, sig) <= 2 + RanRespelled(trace.executed, sig)
    ensures AlwaysNormalised(w, provider) ==> forall sig :: Ran(trace.executed, sig) <= 2
  {
    trace := Trace([], [], []);
    if w.registry == map[] || !supportsTools {
      return if plain.Some? then Answer(plain.value) else Raised, trace;
    }
    ending, trace := EngageTools(w, provider, closing);
    OpeningPromises(w, provider, closing);
    CountsFollow(trace.executed);
  }

  /** The loop itself, which follows the turn step by step. */
  method EngageTools(w: World, provider: Provider, closing: Provider) returns (ending: Ending, trace: Trace)
    requires NonEmptyCalls(provider)
    ensures PlayedTurn(ending, trace.rounds, trace.executed) == PlayTurn(w, provider, closing, [], OPENING)
    ensures trace.frozen == if ending.ApprovalRequired? then [ending.call] else []
  {
    var budget := new ToolCallBudget(DEFAULT_LIMITS);
    trace := Trace([], [], []);
    var turn := provider([]);
    while true
      invariant budget.Valid() && fresh(budget) && budget.limits == DEFAULT_LIMITS
      invariant turn == provider(trace.rounds) && trace.frozen == [] && |budget.log| < 5
      invariant PlayTurn(w, provider, closing, [], OPENING) ==
                PlayTurn(w, provider, closing, trace.rounds, Books(budget.log, trace.executed))
      decreases 5 - |budget.log|
    {
      if turn.Final? {
        return Answer(turn.text), trace;
      }
      if turn.ProviderFails? {
        return Raised, trace;
      }
      RoundRecords(w, Books(budget.log, trace.executed), turn.requests);
      var stopped, results, executed, frozen := ProcessRound(w, budget, turn.requests, trace.executed);
      if stopped.Some? {
        return stopped.value, trace.(executed := executed, frozen := frozen);
      }
      trace := Trace(trace.rounds + [Round(turn.requests, results)], executed, []);
      var more := budget.AllowNext();
      if !more {
        var last := closing(trace.rounds);
        return Answer(if last.Final? && last.text != "" then last.text else FALLBACK), trace;
      }
      turn := provider(trace.rounds);
    }
  }

  lemma CountsFollow(es: seq<Executed>)
    requires Bounded(es)
    ensures forall sig :: Ran(es, sig) <= 2 + RanRespelled(es, sig)
    ensures (forall e :: e in es ==> e.raw == e.args) ==> forall sig :: Ran(es, sig) <= 2
  {
    forall sig ensures Ran(es, sig) == RanAsSpelled(es, sig) + RanRespelled(es, sig)
      ensures (forall e :: e in es ==> e.raw == e.args) ==> RanRespelled(es, sig) == 0
    {
      RanSplits(es, sig);
    }
  }

  // ----- exactly when the cap of two holds ------------------------------------------------

  function Repeated<T>(x: T, k: nat): (r: seq<T>)
    ensures |r| == k && forall i :: 0 <= i < k ==> r[i] == x
  {
    seq(k, _ => x)
  }

  lemma RepeatedStep<T>(x: T, k: nat)
    ensures Repeated(x, k + 1) == Repeated(x, k) + [x] && Repeated(x, k + 1)[..k] == Repeated(x, k)
  {
  }

  /** Successes under one signature leave every other signature uncounted. */
  lemma {:induction false} OtherSignatureAllowed(sig: Signature, other: Signature, k: nat)
    requires sig != other && k < DEFAULT_LIMITS.maxCalls
    ensures Allows(DEFAULT_LIMITS, Repeated(Entry(sig, Success), k), other)
    ensures Occurrences(Repeated(Entry(sig, Success), k), other) == 0
  {
    if k > 0 {
      OtherSignatureAllowed(sig, other, k - 1);
      RepeatedStep(Entry(sig, Success), k - 1);
    }
  }

  lemma {:induction false} RanRepeated(e: Executed, k: nat)
    ensures Ran(Repeated(e, k), Signature(e.tool, e.args)) == k
  {
    if k > 0 {
      RanRepeated(e, k - 1);
      RepeatedStep(e, k - 1);
    }
  }

  /** A world whose reads all succeed. */
  function Willing(norm: Normaliser, registry: Registry): World {
    World(norm, registry, (i, tool, args) => Done(Null), (tool, args) => None)
  }

  ghost predicate Respells(norm: Normaliser, registry: Registry, tool: string, raw: Args, args: Args) {
    && tool in registry && registry[tool].risk == ReadOnly
    && Validate(norm, registry[tool].schema, raw) == Ok(args) && raw != args
  }

  /** A padded request goes through every time: it is looked up under its own spelling and recorded under the
      validated one. */
  lemma {:induction false} PaddedRound(norm: Normaliser, registry: Registry, tool: string, raw: Args, args: Args,
                                       k: nat)
    requires Respells(norm, registry, tool, raw, args) && k <= DEFAULT_LIMITS.maxCalls
    ensures var p := PlayRound(Willing(norm, registry), OPENING, Repeated(Request(tool, raw, ""), k));
            && p.ending.None?
            && p.books == Books(Repeated(Entry(Signature(tool, args), Success), k),
                                Repeated(Executed(tool, args, raw), k))
  {
    if k > 0 {
      var r, e, x := Request(tool, raw, ""), Entry(Signature(tool, args), Success), Executed(tool, args, raw);
      PaddedRound(norm, registry, tool, raw, args, k - 1);
      RepeatedStep(r, k - 1);
      RepeatedStep(e, k - 1);
      RepeatedStep(x, k - 1);
      OtherSignatureAllowed(Signature(tool, args), Signature(tool, raw), k - 1);
      var b := Books(Repeated(e, k - 1), Repeated(x, k - 1));
      assert FateOf(Willing(norm, registry), b.log, r) == Execute(args);
    } else {
      assert Repeated(Request(tool, raw, ""), 0) == [];
    }
  }

  /** A provider that asks for the same thing five times at once. */
  function Insisting(r: Request): Provider {
    h => if h == [] then ToolCalls(Repeated(r, DEFAULT_LIMITS.maxCalls)) else Final("")
  }

  /** One such turn runs the very same call five times. */
  lemma PaddedTurnRunsFiveTimes(norm: Normaliser, registry: Registry, tool: string, raw: Args, args: Args)
    requires Respells(norm, registry, tool, raw, args)
    ensures var provider := Insisting(Request(tool, raw, ""));
            && NonEmptyCalls(provider)
            && Ran(PlayTurn(Willing(norm, registry), provider, provider, [], OPENING).executed,
                   Signature(tool, args)) == 5
  {
    PaddedRound(norm, registry, tool, raw, args, DEFAULT_LIMITS.maxCalls);
    RanRepeated(Executed(tool, args, raw), DEFAULT_LIMITS.maxCalls);
    var provider := Insisting(Request(tool, raw, ""));
    assert provider([]) == ToolCalls(Repeated(Request(tool, raw, ""), DEFAULT_LIMITS.maxCalls));
  }

  /** In every turn, whatever provider, tools and store do, the call runs at most twice. */
  ghost predicate CappedAtTwo(norm: Normaliser, registry: Registry, sig: Signature) {
    forall w: World, provider: Provider, closing: Provider ::
      w.norm == norm && w.registry == registry && NonEmptyCalls(provider) ==>
        Ran(PlayTurn(w, provider, closing, [], OPENING).executed, sig) <= DEFAULT_LIMITS.maxIdentical
  }

  lemma {:induction false} NeverRespelled(w: World, es: seq<Executed>, sig: Signature)
    requires ReadsOnly(w, es) && sig.tool in w.registry && OneSpelling(w.norm, w.registry[sig.tool].schema, sig.args)
    ensures RanRespelled(es, sig) == 0
  {
    if es != [] {
      var front, e := es[..|es| - 1], es[|es| - 1];
      assert es == front + [e] && e in es;
      NeverRespelled(w, front, sig);
    }
  }

  /** The cap of two identical executions holds against every provider if and only if no other spelling of the
      arguments validates to them. */
  lemma CapHoldsExactly(norm: Normaliser, registry: Registry, tool: string, args: Args)
    requires tool in registry && registry[tool].risk == ReadOnly
    ensures CappedAtTwo(norm, registry, Signature(tool, args)) <==> OneSpelling(norm, registry[tool].schema, args)
  {
    var sig := Signature(tool, args);
    if OneSpelling(norm, registry[tool].schema, args) {
      forall w: World, provider: Provider, closing: Provider |
        w.norm == norm && w.registry == registry && NonEmptyCalls(provider)
        ensures Ran(PlayTurn(w, provider, closing, [], OPENING).executed, sig) <= DEFAULT_LIMITS.maxIdentical
      {
        var out := PlayTurn(w, provider, closing, [], OPENING);
        OpeningPromises(w, provider, closing);
        CountsFollow(out.executed);
        NeverRespelled(w, out.executed, sig);
      }
    } else {
      var raw :| Validate(norm, registry[tool].schema, raw) == Ok(args) && raw != args;
      PaddedTurnRunsFiveTimes(norm, registry, tool, raw, args);
    }
  }

  /** What a reader of the schema can check: for arguments some request validates to, the cap of two holds if and
      only if the schema takes no extra key, every declared property is given and no value is a text. */
  lemma CapHoldsForFixedScalars(norm: Normaliser, registry: Registry, tool: string, raw: Args, args: Args)
    requires tool in registry && registry[tool].risk == ReadOnly && Distinct(registry[tool].schema.properties)
    requires Validate(norm, registry[tool].schema, raw) == Ok(args)
    ensures CappedAtTwo(norm, registry, Signature(tool, args)) <==>
              && !registry[tool].schema.additionalAllowed
              && args.Keys == Names(registry[tool].schema.properties)
              && forall k :: k in args ==> !args[k].Str?
  {
    CapHoldsExactly(norm, registry, tool, args);
    OneSpellingExactly(norm, registry[tool].schema, raw, args);
  }

  /** Other spellings are easy to come by: a leading blank is stripped away. */
  lemma PaddedTextValidates(norm: Normaliser)
    ensures var schema := Schema([Property("query", Text(1, 200))], [], false);
            Validate(norm, schema, map["query" := Str(" a")]) == Ok(map["query" := Str("a")])
    ensures map["query" := Str(" a")] != map["query" := Str("a")]
  {
    var padded, plain := " a", "a";
    assert |padded| == 2 && padded[0] == ' ' && padded[1..] == plain && !IsSpace(plain[0]);
    assert StripLeft(padded) == plain && StripRight(plain) == plain;
    SingleProperty(norm, Property("query", Text(1, 200)), Str(padded));
    assert map["query" := Str(padded)]["query"] != map["query" := Str(plain)]["query"];
  }
}
