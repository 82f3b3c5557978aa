/** What the model is told about its tool calls: every result reports what happened to its request, and what was
    reported determines what was recorded and executed (backend/tool_conversation.py). */
module ToolReports {
  import opened PyText
  import opened Json
  import opened Validation
  import opened Tools
  import opened ToolBudget
  import opened ToolConversation

  /** Whether a result reports an execution. */
  predicate Reports(t: ToolResult) {
    t.note == Completed || t.note == ToolRefused
  }

  function Reported(results: seq<ToolResult>): (n: nat)
    ensures n <= |results|
  {
    if results == [] then 0
    else Reported(results[..|results| - 1]) + (if Reports(results[|results| - 1]) then 1 else 0)
  }

  /** The arguments a request validates to; its own if it does not. */
  function ValidatedOr(w: World, r: Request): Args {
    if r.tool !in w.registry then r.arguments
    else
      match Validate(w.norm, w.registry[r.tool].schema, r.arguments)
      case Ok(args) => args
      case Err(_) => r.arguments
  }

  /** What the budget records for a request, told from its result. */
  function EntryTold(w: World, r: Request, t: ToolResult): Entry {
    var raw, validated := Signature(r.tool, r.arguments), Signature(r.tool, ValidatedOr(w, r));
    match t.note
    case SkippedByBudget => Entry(raw, Skipped)
    case NoSuchTool => Entry(raw, UnknownTool)
    case InvalidArguments => Entry(raw, Error)
    case HighRiskRefused => Entry(validated, Error)
    case ToolRefused => Entry(validated, Error)
    case Completed => Entry(validated, Success)
  }

  function LogTold(w: World, requests: seq<Request>, results: seq<ToolResult>): (log: seq<Entry>)
    requires |requests| == |results|
    ensures |log| == |results|
  {
    seq(|results|, i requires 0 <= i < |results| => EntryTold(w, requests[i], results[i]))
  }

  ghost predicate Validates(w: World, r: Request) {
    r.tool in w.registry && Validate(w.norm, w.registry[r.tool].schema, r.arguments).Ok?
  }

  /** The result `t` of request `r` says what happened: success with exactly the data of the execution at `pos`, or
      no data and the reason, which is the case. */
  ghost predicate Truthful(w: World, log: seq<Entry>, pos: nat, r: Request, t: ToolResult, executed: seq<Executed>) {
    && t.callId == r.callId && t.tool == r.tool && (t.success <==> t.note == Completed)
    && (t.note == SkippedByBudget <==> !Allows(DEFAULT_LIMITS, log, Signature(r.tool, r.arguments)))
    && (!t.success ==> t.data == None)
    && (Reports(t) ==>
          && Validates(w, r) && w.registry[r.tool].risk == ReadOnly
          && pos < |executed| && executed[pos] == Executed(r.tool, ValidatedOr(w, r), r.arguments))
    && match t.note
       case SkippedByBudget => true
       case NoSuchTool => r.tool !in w.registry
       case InvalidArguments => r.tool in w.registry && !Validates(w, r)
       case HighRiskRefused => Validates(w, r) && w.registry[r.tool].risk == HighRisk
       case ToolRefused => w.execute(pos, r.tool, ValidatedOr(w, r)) == Refused
       case Completed => t.data.Some? && w.execute(pos, r.tool, ValidatedOr(w, r)) == Done(t.data.value)
  }

  /** The `i`-th of all results so far. */
  ghost predicate TruthfulAt(w: World, requests: seq<Request>, results: seq<ToolResult>, executed: seq<Executed>,
                             i: nat)
    requires |requests| == |results| && i < |results|
  {
    Truthful(w, LogTold(w, requests[..i], results[..i]), Reported(results[..i]), requests[i], results[i], executed)
  }

  ghost predicate AllTruthful(w: World, requests: seq<Request>, results: seq<ToolResult>, executed: seq<Executed>) {
    && |requests| == |results| && Reported(results) <= |executed|
    && forall i :: 0 <= i < |results| ==> TruthfulAt(w, requests, results, executed, i)
  }

  /** One request that does not stop the turn. */
  lemma RequestReported(w: World, b: Books, r: Request)
    requires PlayRequest(w, b, r).step.Continue?
    ensures var p := PlayRequest(w, b, r);
            var t := p.step.result;
            && p.books.log == b.log + [EntryTold(w, r, t)]
            && |p.books.executed| == |b.executed| + (if Reports(t) then 1 else 0) && b.executed <= p.books.executed
            && Truthful(w, b.log, |b.executed|, r, t, p.books.executed)
  {
  }

  /** The books are what the results told. */
  ghost predicate Told(w: World, requests: seq<Request>, results: seq<ToolResult>, b: Books) {
    && AllTruthful(w, requests, results, b.executed)
    && b.log == LogTold(w, requests, results) && |b.executed| == Reported(results)
  }

  lemma TruthStays(w: World, requests: seq<Request>, results: seq<ToolResult>, more: seq<Request>,
                   told: seq<ToolResult>, before: seq<Executed>, after: seq<Executed>, i: nat)
    requires |requests| == |results| && |more| == |told| && i < |results| && before <= after
    requires TruthfulAt(w, requests, results, before, i)
    ensures TruthfulAt(w, requests + more, results + told, after, i)
  {
    assert (requests + more)[..i] == requests[..i] && (results + told)[..i] == results[..i];
  }

  lemma ToldPush(w: World, requests: seq<Request>, results: seq<ToolResult>, b: Books, r: Request)
    requires Told(w, requests, results, b) && PlayRequest(w, b, r).step.Continue?
    ensures Told(w, requests + [r], results + [PlayRequest(w, b, r).step.result], PlayRequest(w, b, r).books)
  {
    var p := PlayRequest(w, b, r);
    var t := p.step.result;
    RequestReported(w, b, r);
    var all, ts := requests + [r], results + [t];
    assert all[..|results|] == requests && ts[..|results|] == results;
    forall i | 0 <= i < |ts|
      ensures TruthfulAt(w, all, ts, p.books.executed, i)
    {
      if i < |results| {
        TruthStays(w, requests, results, [r], [t], b.executed, p.books.executed, i);
      }
    }
    assert LogTold(w, all, ts) == LogTold(w, requests, results) + [EntryTold(w, r, t)];
  }

  /** A completed round. */
  lemma {:induction false} RoundReported(w: World, requests: seq<Request>, results: seq<ToolResult>, b: Books,
                                         asked: seq<Request>)
    requires Told(w, requests, results, b)
    ensures var p := PlayRound(w, b, asked);
            && b.executed <= p.books.executed
            && (p.ending.None? ==> |p.results| == |asked| && Told(w, requests + asked, results + p.results, p.books))
  {
    if asked == [] {
      assert requests + asked == requests && results + [] == results;
    } else {
      var front, r := asked[..|asked| - 1], asked[|asked| - 1];
      RoundReported(w, requests, results, b, front);
      var was := PlayRound(w, b, front);
      if was.ending.None? {
        RequestGrows(w, was.books, r);
        if PlayRequest(w, was.books, r).step.Continue? {
          var t := PlayRequest(w, was.books, r).step.result;
          ToldPush(w, requests + front, results + was.results, was.books, r);
          assert requests + front + [r] == requests + asked;
          assert results + was.results + [t] == results + (was.results + [t]);
        }
      }
    }
  }

  lemma RequestGrows(w: World, b: Books, r: Request)
    ensures b.executed <= PlayRequest(w, b, r).books.executed
  {
  }

  // ----- the whole turn -------------------------------------------------------------------------------

  function AllRequests(rounds: seq<Round>): seq<Request> {
    if rounds == [] then [] else AllRequests(rounds[..|rounds| - 1]) + rounds[|rounds| - 1].requests
  }

  function AllResults(rounds: seq<Round>): seq<ToolResult> {
    if rounds == [] then [] else AllResults(rounds[..|rounds| - 1]) + rounds[|rounds| - 1].results
  }

  lemma AllPush(rounds: seq<Round>, round: Round)
    ensures AllRequests(rounds + [round]) == AllRequests(rounds) + round.requests
    ensures AllResults(rounds + [round]) == AllResults(rounds) + round.results
  {
    assert (rounds + [round])[..|rounds|] == rounds;
  }

  lemma TruthfulLater(w: World, requests: seq<Request>, results: seq<ToolResult>, before: seq<Executed>,
                      after: seq<Executed>)
    requires AllTruthful(w, requests, results, before) && before <= after
    ensures AllTruthful(w, requests, results, after)
  {
    forall i | 0 <= i < |results|
      ensures TruthfulAt(w, requests, results, after, i)
    {
      TruthStays(w, requests, results, [], [], before, after, i);
      assert requests + [] == requests && results + [] == results;
    }
  }

  lemma {:induction false} TurnReported(w: World, provider: Provider, closing: Provider, rounds: seq<Round>, b: Books)
    requires NonEmptyCalls(provider) && |b.log| < DEFAULT_LIMITS.maxCalls
    requires Told(w, AllRequests(rounds), AllResults(rounds), b)
    ensures var out := PlayTurn(w, provider, closing, rounds, b);
            AllTruthful(w, AllRequests(out.rounds), AllResults(out.rounds), out.executed)
    decreases DEFAULT_LIMITS.maxCalls - |b.log|
  {
    if provider(rounds).ToolCalls? {
      var requests := provider(rounds).requests;
      RoundReported(w, AllRequests(rounds), AllResults(rounds), b, requests);
      var p := PlayRound(w, b, requests);
      if p.ending.Some? {
        TruthfulLater(w, AllRequests(rounds), AllResults(rounds), b.executed, p.books.executed);
      } else {
        AllPush(rounds, Round(requests, p.results));
        RoundRecords(w, b, requests);
        if AllowsNext(DEFAULT_LIMITS, p.books.log) {
          TurnReported(w, provider, closing, rounds + [Round(requests, p.results)], p.books);
        }
      }
    }
  }

  /** In every turn, against every provider, every result the model is given tells what became of its request: a
      success carries exactly the data its execution returned on the validated arguments, anything else carries no
      data and the reason why. */
  lemma ResultsAreTruthful(w: World, provider: Provider, closing: Provider)
    requires NonEmptyCalls(provider)
    ensures var out := PlayTurn(w, provider, closing, [], OPENING);
            AllTruthful(w, AllRequests(out.rounds), AllResults(out.rounds), out.executed)
  {
    TurnReported(w, provider, closing, [], OPENING);
  }

  // ----- the limits as the model sees them ------------------------------------------------------------

  lemma OutcomeTold(w: World, requests: seq<Request>, results: seq<ToolResult>, i: nat)
    requires |requests| == |results| && i < |results|
    ensures LogTold(w, requests, results)[i].outcome == Success <==> results[i].note == Completed
  {
  }

  /** A log that ends in at least `n` failures. */
  lemma {:induction false} FailuresTrail(log: seq<Entry>, n: nat)
    requires n <= |log| && forall i :: |log| - n <= i < |log| ==> log[i].outcome != Success
    ensures TrailingFailures(log) >= n
  {
    if n > 0 {
      FailuresTrail(log[..|log| - 1], n - 1);
    }
  }

  /** After two failures in a row, and from the sixth request on, everything is skipped. */
  lemma {:induction false} LimitsHold(w: World, requests: seq<Request>, results: seq<ToolResult>,
                                      executed: seq<Executed>, i: nat, j: nat)
    requires AllTruthful(w, requests, results, executed) && j < |results|
    ensures j >= 5 ==> results[j].note == SkippedByBudget
    ensures i + 1 < j && !results[i].success && !results[i + 1].success ==> results[j].note == SkippedByBudget
    decreases j
  {
    assert TruthfulAt(w, requests, results, executed, j);
    var log := LogTold(w, requests[..j], results[..j]);
    if i + 1 < j && !results[i].success && !results[i + 1].success {
      forall x | i <= x < j
        ensures log[x].outcome != Success
      {
        if x > i + 1 {
          LimitsHold(w, requests, results, executed, i, x);
        }
        assert TruthfulAt(w, requests, results, executed, x);
        OutcomeTold(w, requests[..j], results[..j], x);
      }
      FailuresTrail(log, j - i);
    }
  }

  // ----- how a turn stops --------------------------------------------------------------------------------

  /** Request `r` stopped the turn: it froze exactly its validated call, or storage failed on it. */
  ghost predicate StopsTurn(w: World, r: Request, ending: Ending, executed: seq<Executed>) {
    && Validates(w, r)
    && match ending
       case Answer(_) => false
       case ApprovalRequired(operation, call) =>
         && w.registry[r.tool].risk == InternalWrite && call == Signature(r.tool, ValidatedOr(w, r))
         && w.freeze(call.tool, call.args) == Some(operation)
       case Raised =>
         || (w.registry[r.tool].risk == InternalWrite && w.freeze(r.tool, ValidatedOr(w, r)) == None)
         || (&& executed != [] && executed[|executed| - 1] == Executed(r.tool, ValidatedOr(w, r), r.arguments)
             && w.execute(|executed| - 1, r.tool, ValidatedOr(w, r)) == Broken)
  }

  lemma RequestStops(w: World, b: Books, r: Request)
    requires PlayRequest(w, b, r).step.Stop?
    ensures StopsTurn(w, r, PlayRequest(w, b, r).step.ending, PlayRequest(w, b, r).books.executed)
  {
  }

  lemma {:induction false} RoundStopsFor(w: World, b: Books, asked: seq<Request>)
    ensures var p := PlayRound(w, b, asked);
            p.ending.Some? ==> exists r :: r in asked && StopsTurn(w, r, p.ending.value, p.books.executed)
  {
    if asked != [] {
      var front, r := asked[..|asked| - 1], asked[|asked| - 1];
      RoundStopsFor(w, b, front);
      var was := PlayRound(w, b, front);
      if was.ending.None? {
        if PlayRequest(w, was.books, r).step.Stop? {
          RequestStops(w, was.books, r);
        }
      } else {
        var q :| q in front && StopsTurn(w, q, was.ending.value, was.books.executed);
        assert q in asked;
      }
    }
  }

  /** A turn ends with a frozen operation or an error only because the provider failed or because one of the requests
      it had just made froze its own validated call or met a storage failure. */
  ghost predicate StopsFor(w: World, provider: Provider, out: PlayedTurn) {
    match provider(out.rounds)
    case ProviderFails => out.ending.Raised?
    case Final(text) => out.ending == Answer(text)
    case ToolCalls(requests) =>
      out.ending.Answer? || exists r :: r in requests && StopsTurn(w, r, out.ending, out.executed)
  }

  lemma {:induction false} TurnStopsFor(w: World, provider: Provider, closing: Provider, rounds: seq<Round>, b: Books)
    requires NonEmptyCalls(provider) && |b.log| < DEFAULT_LIMITS.maxCalls
    ensures var out := PlayTurn(w, provider, closing, rounds, b);
            out.ending.Answer? || StopsFor(w, provider, out)
    decreases DEFAULT_LIMITS.maxCalls - |b.log|
  {
    if provider(rounds).ToolCalls? {
      var requests := provider(rounds).requests;
      RoundStopsFor(w, b, requests);
      var p := PlayRound(w, b, requests);
      RoundRecords(w, b, requests);
      if p.ending.None? && AllowsNext(DEFAULT_LIMITS, p.books.log) {
        TurnStopsFor(w, provider, closing, rounds + [Round(requests, p.results)], p.books);
      }
    }
  }

  /** An answer is the provider's own final text, its closing words once the budget is spent, or, when it has none, the
      fixed notice. */
  lemma AnswersAreTheProvidersOwn(w: World, provider: Provider, closing: Provider)
    requires NonEmptyCalls(provider)
    ensures var out := PlayTurn(w, provider, closing, [], OPENING);
            out.ending.Answer? ==>
              || provider(out.rounds) == Final(out.ending.text)
              || (out.rounds != [] && closing(out.rounds) == Final(out.ending.text) && out.ending.text != "")
              || (out.rounds != [] && out.ending.text == FALLBACK
                  && (closing(out.rounds).Final? ==> closing(out.rounds).text == ""))
  {
    OpeningPromises(w, provider, closing);
  }
}
