/** The per-turn tool-call budget (backend/tool_budget.py), specified by the log of
    processed requests it has recorded. */
module ToolBudget {
  import opened Json

  /** The digest of a tool name and its arguments, taken as injective. */
  datatype Signature = Signature(tool: string, args: Args)

  datatype Outcome = Success | Error | UnknownTool | Skipped

  datatype Entry = Entry(signature: Signature, outcome: Outcome)

  datatype Limits = Limits(maxCalls: int, maxIdentical: int, maxFailures: int)

  const DEFAULT_LIMITS := Limits(5, 2, 2)

  function Occurrences(log: seq<Entry>, sig: Signature): nat {
    if log == [] then 0
    else Occurrences(log[..|log| - 1], sig) + (if log[|log| - 1].signature == sig then 1 else 0)
  }

  function Successes(log: seq<Entry>): (n: nat)
    ensures n <= |log|
  {
    if log == [] then 0
    else Successes(log[..|log| - 1]) + (if log[|log| - 1].outcome == Success then 1 else 0)
  }

  /** How many requests failed since the last success. */
  function TrailingFailures(log: seq<Entry>): (n: nat)
    ensures n <= |log|
  {
    if log == [] || log[|log| - 1].outcome == Success then 0 else TrailingFailures(log[..|log| - 1]) + 1
  }

  predicate AllowsNext(limits: Limits, log: seq<Entry>) {
    |log| < limits.maxCalls && TrailingFailures(log) < limits.maxFailures
  }

  predicate Allows(limits: Limits, log: seq<Entry>, sig: Signature) {
    AllowsNext(limits, log) && Occurrences(log, sig) < limits.maxIdentical
  }

  class ToolCallBudget {
    const limits: Limits
    var totalCalls: nat
    var executions: nat
    var consecutiveFailures: nat
    var signatureCounts: map<Signature, nat>
    ghost var log: seq<Entry>

    ghost predicate Valid()
      reads this
    {
      && totalCalls == |log| && executions == Successes(log) && consecutiveFailures == TrailingFailures(log)
      && (forall sig :: Count(sig) == Occurrences(log, sig))
    }

    function Count(sig: Signature): nat
      reads this
    {
      if sig in signatureCounts then signatureCounts[sig] else 0
    }

    constructor (limits: Limits)
      ensures Valid() && log == [] && this.limits == limits
    {
      this.limits := limits;
      totalCalls, executions, consecutiveFailures, signatureCounts, log := 0, 0, 0, map[], [];
    }

    method Remaining() returns (n: nat)
      requires Valid()
      ensures n == if |log| < limits.maxCalls then limits.maxCalls - |log| else 0
    {
      n := if limits.maxCalls - totalCalls > 0 then limits.maxCalls - totalCalls else 0;
    }

    method AllowNext() returns (ok: bool)
      requires Valid()
      ensures ok == AllowsNext(limits, log)
    {
      if totalCalls >= limits.maxCalls {
        return false;
      }
      if consecutiveFailures >= limits.maxFailures {
        return false;
      }
      ok := true;
    }

    method AllowCall(tool: string, args: Args) returns (ok: bool)
      requires Valid()
      ensures ok == Allows(limits, log, Signature(tool, args))
    {
      ok := AllowNext();
      if ok {
        ok := Count(Signature(tool, args)) < limits.maxIdentical;
      }
    }

    method Record(tool: string, args: Args, outcome: Outcome)
      requires Valid()
      modifies this
      ensures Valid() && log == old(log) + [Entry(Signature(tool, args), outcome)]
    {
      totalCalls := totalCalls + 1;
      var sig := Signature(tool, args);
      signatureCounts := signatureCounts[sig := Count(sig) + 1];
      if outcome == Success {
        executions := executions + 1;
        consecutiveFailures := 0;
      } else {
        consecutiveFailures := consecutiveFailures + 1;
      }
      log := log + [Entry(sig, outcome)];
      assert log[..|log| - 1] == old(log);
    }
  }
}
