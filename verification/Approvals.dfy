/** Durable approval of frozen write-tool calls: the guarded transactions on the
    operation and Run tables, and the requests that race through them
    (backend/tool_operations.py, backend/tool_executor.py, backend/runs.py). */
module Approvals {
  import opened PyText
  import opened Json
  import opened Validation
  import opened Tools

  type OpId = string
  type RunId = string
  type RequestId = nat

  datatype Status = Pending | Executing | Succeeded | Rejected | Failed | Expired

  predicate Terminal(s: Status) {
    s != Pending && s != Executing
  }

  /** What the human reviewed; nothing may change it afterwards. */
  datatype Frozen = Frozen(
    tool: string, version: Option<string>, args: Args,
    conversation: Option<string>, project: Option<string>, createdAt: int, expiresAt: Option<int>)

  datatype ErrorClass =
    | ToolNotFound | VersionMismatch | ValidationFailed | PermissionDenied | ExecutionFailed | StorageFailed

  datatype Operation = Operation(
    frozen: Frozen, status: Status, updatedAt: int, decidedAt: Option<int>,
    resultRun: Option<RunId>, resultReference: Option<string>, error: Option<ErrorClass>)

  datatype RunStatus = RunStarted | RunSucceeded | RunFailed

  datatype Run = Run(tool: string, version: Option<string>, status: RunStatus, error: Option<ErrorClass>)

  type Ops = map<OpId, Operation>
  type Runs = map<RunId, Run>

  datatype OpError = NotFound | NotPending(status: Status) | OperationExpired | NotExecuting
  datatype RunError = RunMissing | RunAlreadyFinished

  // ----- transactions as functions ------------------------------------------

  function Created(frozen: Frozen): Operation {
    Operation(frozen, Pending, frozen.createdAt, None, None, None, None)
  }

  predicate Stale(ops: Ops, id: OpId, now: int) {
    && id in ops && ops[id].status == Pending
    && ops[id].frozen.expiresAt.Some? && ops[id].frozen.expiresAt.value < now
  }

  function Expire(ops: Ops, id: OpId, now: int): Ops {
    if Stale(ops, id, now) then ops[id := ops[id].(status := Expired, updatedAt := now)] else ops
  }

  function PendingError(ops: Ops, id: OpId): Option<OpError> {
    if id !in ops then Some(NotFound)
    else if ops[id].status != Pending then Some(NotPending(ops[id].status))
    else None
  }

  function Claim(ops: Ops, id: OpId, now: int): Ops {
    if PendingError(ops, id).Some? then ops else ops[id := ops[id].(status := Executing, updatedAt := now)]
  }

  function Reject(ops: Ops, id: OpId, now: int): Ops {
    if PendingError(ops, id).Some? then ops
    else ops[id := ops[id].(status := Rejected, updatedAt := now, decidedAt := Some(now))]
  }

  /** The decision a finished request writes. */
  datatype Verdict = Verdict(status: Status, run: Option<RunId>, reference: Option<string>, error: Option<ErrorClass>)

  predicate CanFinalize(ops: Ops, id: OpId) {
    id in ops && ops[id].status == Executing
  }

  function Finalize(ops: Ops, id: OpId, v: Verdict, now: int): Ops {
    if !CanFinalize(ops, id) then ops
    else ops[id := ops[id].(status := v.status, updatedAt := now, decidedAt := Some(now),
                            resultRun := v.run, resultReference := v.reference, error := v.error)]
  }

  function RunFinishError(runs: Runs, id: RunId): Option<RunError> {
    if id !in runs then Some(RunMissing)
    else if runs[id].status != RunStarted then Some(RunAlreadyFinished)
    else None
  }

  function FinishRun(runs: Runs, id: RunId, error: Option<ErrorClass>): Runs {
    if RunFinishError(runs, id).Some? then runs
    else runs[id := runs[id].(status := if error.None? then RunSucceeded else RunFailed, error := error)]
  }

  /** The tables and the transactions on them, each atomic. */
  class OperationStore {
    var ops: Ops
    var runs: Runs

    constructor ()
      ensures ops == map[] && runs == map[]
    {
      ops, runs := map[], map[];
    }

    method CreatePendingOperation(id: OpId, frozen: Frozen)
      requires id !in ops
      modifies this`ops
      ensures ops == old(ops)[id := Created(frozen)]
      ensures ops[id].frozen == frozen && ops[id].status == Pending && ops[id].updatedAt == frozen.createdAt
      ensures ops[id].decidedAt == None && ops[id].resultRun == None && ops[id].error == None
    {
      ops := ops[id := Operation(frozen, Pending, frozen.createdAt, None, None, None, None)];
    }

    method ExpireStale(id: OpId, now: int) returns (expired: bool)
      modifies this`ops
      ensures expired == Stale(old(ops), id, now)
      ensures ops == Expire(old(ops), id, now)
    {
      if id !in ops || ops[id].status != Pending || ops[id].frozen.expiresAt.None? {
        return false;
      }
      if ops[id].frozen.expiresAt.value >= now {
        return false;
      }
      ops := ops[id := ops[id].(status := Expired, updatedAt := now)];
      return true;
    }

    method ClaimPending(id: OpId, now: int) returns (r: Result<Operation, OpError>)
      modifies this`ops
      ensures ops == Claim(old(ops), id, now)
      ensures r == match PendingError(old(ops), id) case Some(e) => Err(e) case None => Ok(old(ops)[id])
    {
      if id !in ops {
        return Err(NotFound);
      }
      var operation := ops[id];
      if operation.status != Pending {
        return Err(NotPending(operation.status));
      }
      ops := ops[id := operation.(status := Executing, updatedAt := now)];
      r := Ok(operation);
    }

    method RejectPending(id: OpId, now: int) returns (r: Result<Operation, OpError>)
      modifies this`ops
      ensures ops == Reject(old(ops), id, now)
      ensures r == match PendingError(old(ops), id) case Some(e) => Err(e) case None => Ok(ops[id])
    {
      if id !in ops {
        return Err(NotFound);
      }
      if ops[id].status != Pending {
        return Err(NotPending(ops[id].status));
      }
      ops := ops[id := ops[id].(status := Rejected, updatedAt := now, decidedAt := Some(now))];
      r := Ok(ops[id]);
    }

    method FinalizeOperation(id: OpId, v: Verdict, now: int) returns (r: Result<Operation, OpError>)
      modifies this`ops
      ensures ops == Finalize(old(ops), id, v, now)
      ensures r == if CanFinalize(old(ops), id) then Ok(ops[id]) else Err(NotExecuting)
    {
      if id !in ops || ops[id].status != Executing {
        return Err(NotExecuting);
      }
      ops := ops[id := ops[id].(status := v.status, updatedAt := now, decidedAt := Some(now),
                                resultRun := v.run, resultReference := v.reference, error := v.error)];
      r := Ok(ops[id]);
    }

    method StartToolRun(id: RunId, tool: string, version: Option<string>)
      requires id !in runs
      modifies this`runs
      ensures runs == old(runs)[id := Run(tool, version, RunStarted, None)]
    {
      runs := runs[id := Run(tool, version, RunStarted, None)];
    }

    method FinishToolRun(id: RunId, error: Option<ErrorClass>) returns (r: Result<Run, RunError>)
      modifies this`runs
      ensures runs == FinishRun(old(runs), id, error)
      ensures r == match RunFinishError(old(runs), id) case Some(e) => Err(e) case None => Ok(runs[id])
    {
      if id !in runs {
        return Err(RunMissing);
      }
      if runs[id].status != RunStarted {
        return Err(RunAlreadyFinished);
      }
      runs := runs[id := runs[id].(status := if error.None? then RunSucceeded else RunFailed, error := error)];
      r := Ok(runs[id]);
    }
  }

  // ----- racing requests ------------------------------------------------------

  /** One invocation of a tool's executor callable. */
  datatype Call = Call(op: OpId, tool: string, version: string, schema: Schema, args: Args)

  /** Where a request stands: each constructor names the transaction it is about to run. */
  datatype Phase =
    | ApproveExpire(op: OpId)
    | ApproveClaim(op: OpId)
    | Lookup(op: OpId, frozen: Frozen)
    | RefuseStart(op: OpId, frozen: Frozen, why: ErrorClass)
    | RefuseFinish(op: OpId, frozen: Frozen, why: ErrorClass, run: RunId)
    | StartRun(op: OpId, frozen: Frozen)
    | Invoke(op: OpId, frozen: Frozen, run: RunId)
    | SettleOk(op: OpId, frozen: Frozen, run: RunId, reference: Option<string>)
    | SettleErr(op: OpId, frozen: Frozen, run: RunId, why: ErrorClass)
    | Decide(op: OpId, frozen: Frozen, verdict: Verdict)
    | RejectExpire(op: OpId)
    | RejectDecide(op: OpId)

  datatype State = State(
    ops: Ops, runs: Runs, registry: Registry, requests: map<RequestId, Phase>, calls: seq<Call>)

  /** How an executor call ends; foreign exceptions reach the approval as ExecutionFailed. */
  datatype Outcome = Returned(reference: Option<string>) | Raised(why: ErrorClass)

  datatype Event =
    | Freeze(op: OpId, frozen: Frozen)
    | Arrive(request: RequestId, op: OpId, approve: bool)
    | Advance(request: RequestId, now: int, run: RunId, outcome: Outcome)
    | Fault(request: RequestId)
    | Restart(registry: Registry)

  function Failure(why: ErrorClass): Verdict {
    Verdict(Failed, None, None, Some(why))
  }

  function At(s: State, r: RequestId, p: Phase): State {
    s.(requests := s.requests[r := p])
  }

  function Gone(s: State, r: RequestId): State {
    s.(requests := s.requests - {r})
  }

  /** One committed transaction of request `r`. */
  function Progress(norm: Normaliser, s: State, r: RequestId, now: int, run: RunId, outcome: Outcome): State
    requires r in s.requests
  {
    match s.requests[r]
    case ApproveExpire(op) =>
      if Stale(s.ops, op, now) then Gone(s, r).(ops := Expire(s.ops, op, now)) else At(s, r, ApproveClaim(op))
    case ApproveClaim(op) =>
      if PendingError(s.ops, op).Some? then Gone(s, r)
      else At(s, r, Lookup(op, s.ops[op].frozen)).(ops := Claim(s.ops, op, now))
    case Lookup(op, frozen) =>
      if frozen.tool !in s.registry then At(s, r, RefuseStart(op, frozen, ToolNotFound))
      else if Some(s.registry[frozen.tool].version) != frozen.version
        then At(s, r, RefuseStart(op, frozen, VersionMismatch))
      else At(s, r, StartRun(op, frozen))
    case RefuseStart(op, frozen, why) =>
      var version := if frozen.tool in s.registry then Some(s.registry[frozen.tool].version) else None;
      At(s, r, RefuseFinish(op, frozen, why, run)).(runs := s.runs[run := Run(frozen.tool, version, RunStarted, None)])
    case RefuseFinish(op, frozen, why, started) =>
      if RunFinishError(s.runs, started).Some? then Gone(s, r)
      else At(s, r, Decide(op, frozen, Failure(why))).(runs := FinishRun(s.runs, started, Some(why)))
    case StartRun(op, frozen) =>
      if frozen.tool !in s.registry then At(s, r, Decide(op, frozen, Failure(ToolNotFound)))
      else At(s, r, Invoke(op, frozen, run)).(
             runs := s.runs[run := Run(frozen.tool, Some(s.registry[frozen.tool].version), RunStarted, None)])
    case Invoke(op, frozen, started) => InvokeTool(norm, s, r, op, frozen, started, outcome)
    case SettleOk(op, frozen, started, reference) =>
      if RunFinishError(s.runs, started).Some? then At(s, r, Decide(op, frozen, Failure(StorageFailed)))
      else At(s, r, Decide(op, frozen, Verdict(Succeeded, Some(started), reference, None))).(
             runs := FinishRun(s.runs, started, None))
    case SettleErr(op, frozen, started, why) =>
      if RunFinishError(s.runs, started).Some? then At(s, r, Decide(op, frozen, Failure(StorageFailed)))
      else At(s, r, Decide(op, frozen, Failure(why))).(runs := FinishRun(s.runs, started, Some(why)))
    case Decide(op, _, verdict) => Gone(s, r).(ops := Finalize(s.ops, op, verdict, now))
    case RejectExpire(op) =>
      if Stale(s.ops, op, now) then Gone(s, r).(ops := Expire(s.ops, op, now)) else At(s, r, RejectDecide(op))
    case RejectDecide(op) => Gone(s, r).(ops := Reject(s.ops, op, now))
  }

  /** The second validation and risk check of `execute_tool`, then the executor itself. */
  function InvokeTool(norm: Normaliser, s: State, r: RequestId, op: OpId, frozen: Frozen, started: RunId,
                      outcome: Outcome): State {
    if frozen.tool !in s.registry then At(s, r, SettleErr(op, frozen, started, ExecutionFailed))
    else
      match Validate(norm, s.registry[frozen.tool].schema, frozen.args)
      case Err(_) => At(s, r, SettleErr(op, frozen, started, ValidationFailed))
      case Ok(args) => InvokeValidated(s, r, op, frozen, started, args, outcome)
  }

  function InvokeValidated(s: State, r: RequestId, op: OpId, frozen: Frozen, started: RunId, args: Args,
                           outcome: Outcome): State
    requires frozen.tool in s.registry
  {
    var tool := s.registry[frozen.tool];
    if tool.risk == HighRisk then At(s, r, SettleErr(op, frozen, started, PermissionDenied))
    else
      var called := s.(calls := s.calls + [Call(op, frozen.tool, tool.version, tool.schema, args)]);
      match outcome
      case Returned(reference) => At(called, r, SettleOk(op, frozen, started, reference))
      case Raised(why) => At(called, r, SettleErr(op, frozen, started, why))
  }

  /** A storage failure: inside `execute_tool` it becomes a failed verdict, elsewhere the request dies. */
  function Broken(s: State, r: RequestId): State
    requires r in s.requests
  {
    match s.requests[r]
    case StartRun(op, frozen) => At(s, r, Decide(op, frozen, Failure(StorageFailed)))
    case SettleOk(op, frozen, _, _) => At(s, r, Decide(op, frozen, Failure(StorageFailed)))
    case SettleErr(op, frozen, _, _) => At(s, r, Decide(op, frozen, Failure(StorageFailed)))
    case _ => Gone(s, r)
  }

  /** Identifiers come from uuid4; executors raise only the three classes the boundary lets through. */
  predicate Possible(s: State, e: Event) {
    match e
    case Freeze(op, _) => op !in s.ops
    case Arrive(r, _, _) => r !in s.requests
    case Advance(r, _, run, outcome) =>
      && r in s.requests && run !in s.runs
      && (outcome.Raised? ==> outcome.why in {ValidationFailed, PermissionDenied, ExecutionFailed})
    case Fault(r) => r in s.requests
    case Restart(_) => true
  }

  function Next(norm: Normaliser, s: State, e: Event): State
    requires Possible(s, e)
  {
    match e
    case Freeze(op, frozen) => s.(ops := s.ops[op := Created(frozen)])
    case Arrive(r, op, approve) => At(s, r, if approve then ApproveExpire(op) else RejectExpire(op))
    case Advance(r, now, run, outcome) => Progress(norm, s, r, now, run, outcome)
    case Fault(r) => Broken(s, r)
    case Restart(registry) => s.(requests := map[], registry := registry)
  }

  // ----- the invariant ----------------------------------------------------------

  function CallsFor(calls: seq<Call>, op: OpId): nat {
    if calls == [] then 0
    else CallsFor(calls[..|calls| - 1], op) + (if calls[|calls| - 1].op == op then 1 else 0)
  }

  /** Requests that hold a claim. */
  predicate Owns(p: Phase, op: OpId) {
    p.op == op && !p.ApproveExpire? && !p.ApproveClaim? && !p.RejectExpire? && !p.RejectDecide?
  }

  ghost predicate RunMatches(runs: Runs, run: RunId, frozen: Frozen) {
    run in runs && runs[run].tool == frozen.tool && runs[run].version == frozen.version
  }

  ghost predicate Refusal(e: ErrorClass) {
    e == ToolNotFound || e == VersionMismatch
  }

  /** What a verdict may claim about what happened. */
  ghost predicate VerdictOk(s: State, op: OpId, frozen: Frozen, v: Verdict) {
    match v.status
    case Succeeded =>
      && v.error == None && CallsFor(s.calls, op) == 1
      && v.run.Some? && RunMatches(s.runs, v.run.value, frozen) && s.runs[v.run.value].status == RunSucceeded
    case Failed =>
      && v.run == None && v.error.Some? && CallsFor(s.calls, op) <= 1
      && (Refusal(v.error.value) ==> CallsFor(s.calls, op) == 0)
      && (v.error.value == ExecutionFailed ==> CallsFor(s.calls, op) == 1)
    case _ => false
  }

  ghost predicate OpOk(s: State, op: OpId)
    requires op in s.ops
  {
    var o := s.ops[op];
    match o.status
    case Executing => CallsFor(s.calls, op) <= 1
    case Succeeded => VerdictOk(s, op, o.frozen, Verdict(Succeeded, o.resultRun, o.resultReference, o.error))
    case Failed => VerdictOk(s, op, o.frozen, Verdict(Failed, o.resultRun, o.resultReference, o.error))
    case _ => CallsFor(s.calls, op) == 0
  }

  ghost predicate Registered(s: State, frozen: Frozen) {
    frozen.tool in s.registry && frozen.version == Some(s.registry[frozen.tool].version)
  }

  ghost predicate PhaseOk(s: State, p: Phase) {
    Owns(p, p.op) ==>
      && p.op in s.ops && s.ops[p.op].status == Executing && p.frozen == s.ops[p.op].frozen
      && match p
         case SettleOk(op, frozen, run, _) =>
           CallsFor(s.calls, op) == 1 && RunMatches(s.runs, run, frozen)
         case SettleErr(op, frozen, run, why) =>
           && CallsFor(s.calls, op) <= 1 && RunMatches(s.runs, run, frozen) && !Refusal(why)
           && (why == ExecutionFailed ==> CallsFor(s.calls, op) == 1)
         case Decide(op, frozen, v) => VerdictOk(s, op, frozen, v)
         case Invoke(op, frozen, run) =>
           CallsFor(s.calls, op) == 0 && RunMatches(s.runs, run, frozen) && Registered(s, frozen)
         case StartRun(op, frozen) => CallsFor(s.calls, op) == 0 && Registered(s, frozen)
         case RefuseStart(op, _, why) => CallsFor(s.calls, op) == 0 && Refusal(why)
         case RefuseFinish(op, _, why, _) => CallsFor(s.calls, op) == 0 && Refusal(why)
         case _ => CallsFor(s.calls, p.op) == 0
  }

  /** Each call ran the frozen tool at its frozen version on the revalidated frozen arguments. */
  ghost predicate CallOk(norm: Normaliser, s: State, c: Call) {
    && c.op in s.ops
    && c.tool == s.ops[c.op].frozen.tool && Some(c.version) == s.ops[c.op].frozen.version
    && Validate(norm, c.schema, s.ops[c.op].frozen.args) == Ok(c.args)
  }

  ghost predicate Inv(norm: Normaliser, s: State) {
    && (forall op :: op in s.ops ==> OpOk(s, op))
    && (forall r :: r in s.requests ==> PhaseOk(s, s.requests[r]))
    && (forall r, q, op :: r in s.requests && q in s.requests && Owns(s.requests[r], op) && Owns(s.requests[q], op) ==>
             r == q)
    && (forall c :: c in s.calls ==> CallOk(norm, s, c))
  }

  // ----- preservation -------------------------------------------------------------

  /** Finished Runs are kept and started ones keep their identity. */
  ghost predicate RunsExtend(a: Runs, b: Runs) {
    forall k :: k in a ==>
      k in b && b[k].tool == a[k].tool && b[k].version == a[k].version && (a[k].status != RunStarted ==> b[k] == a[k])
  }

  ghost predicate Elsewhere(s: State, t: State, op: OpId) {
    && (forall k :: k in s.ops ==>
             k in t.ops && t.ops[k].frozen == s.ops[k].frozen && (k != op ==> t.ops[k] == s.ops[k]))
    && (forall k :: k in t.ops && k != op ==> k in s.ops)
    && (t.calls == s.calls || exists c: Call :: c.op == op && t.calls == s.calls + [c])
  }

  lemma CountElsewhere(s: State, t: State, op: OpId, k: OpId)
    requires Elsewhere(s, t, op) && k != op
    ensures CallsFor(t.calls, k) == CallsFor(s.calls, k)
  {
    if t.calls != s.calls {
      var c: Call :| c.op == op && t.calls == s.calls + [c];
      assert t.calls[..|t.calls| - 1] == s.calls;
    }
  }

  lemma PhaseElsewhere(s: State, t: State, op: OpId, p: Phase)
    requires PhaseOk(s, p) && p.op != op && t.registry == s.registry
    requires Elsewhere(s, t, op) && RunsExtend(s.runs, t.runs)
    ensures PhaseOk(t, p)
  {
    CountElsewhere(s, t, op, p.op);
  }

  lemma OpElsewhere(s: State, t: State, op: OpId, k: OpId)
    requires k in s.ops && k in t.ops && OpOk(s, k) && k != op
    requires Elsewhere(s, t, op) && RunsExtend(s.runs, t.runs)
    ensures OpOk(t, k)
  {
    CountElsewhere(s, t, op, k);
  }

  /** A step of one request `r` that touches only operation `op`, which no other request owns. */
  lemma LocalStep(norm: Normaliser, s: State, t: State, r: RequestId, op: OpId)
    requires Inv(norm, s) && t.registry == s.registry
    requires Elsewhere(s, t, op) && RunsExtend(s.runs, t.runs)
    requires forall q :: q in t.requests && q != r ==> q in s.requests && t.requests[q] == s.requests[q]
    requires forall q :: q in s.requests && q != r ==> !Owns(s.requests[q], op)
    requires r in t.requests ==> t.requests[r].op == op && PhaseOk(t, t.requests[r])
    requires op in t.ops ==> OpOk(t, op)
    requires forall c :: c in t.calls && c !in s.calls ==> CallOk(norm, t, c)
    ensures Inv(norm, t)
  {
    forall k | k in t.ops ensures OpOk(t, k) {
      if k != op {
        OpElsewhere(s, t, op, k);
      }
    }
    forall q | q in t.requests ensures PhaseOk(t, t.requests[q]) {
      if q != r && t.requests[q].op != op {
        PhaseElsewhere(s, t, op, t.requests[q]);
      }
    }
    forall c | c in t.calls ensures CallOk(norm, t, c) {
      if c in s.calls {
        assert CallOk(norm, s, c);
      }
    }
  }

  /** The owner of a claim moves on to phase `p`; only Run rows change. */
  lemma OwnerStep(norm: Normaliser, s: State, r: RequestId, runs: Runs, p: Phase)
    requires Inv(norm, s) && r in s.requests && Owns(s.requests[r], p.op)
    requires RunsExtend(s.runs, runs)
    requires PhaseOk(At(s, r, p).(runs := runs), p)
    ensures Inv(norm, At(s, r, p).(runs := runs))
  {
    var t := At(s, r, p).(runs := runs);
    assert PhaseOk(s, s.requests[r]);
    assert OpOk(s, p.op) && OpOk(t, p.op);
    LocalStep(norm, s, t, r, p.op);
  }

  lemma RunStartExtends(runs: Runs, k: RunId, run: Run)
    requires k !in runs
    ensures RunsExtend(runs, runs[k := run])
  {
  }

  lemma RunFinishExtends(runs: Runs, k: RunId, error: Option<ErrorClass>)
    ensures RunsExtend(runs, FinishRun(runs, k, error))
  {
  }

  lemma RefuseKeepsInv(norm: Normaliser, s: State, r: RequestId, now: int, run: RunId, outcome: Outcome)
    requires Inv(norm, s) && Possible(s, Advance(r, now, run, outcome))
    requires s.requests[r].RefuseStart? || s.requests[r].RefuseFinish?
    ensures Inv(norm, Progress(norm, s, r, now, run, outcome))
  {
    var t := Progress(norm, s, r, now, run, outcome);
    assert PhaseOk(s, s.requests[r]);
    match s.requests[r]
    case RefuseStart(op, frozen, why) =>
      RunStartExtends(s.runs, run, t.runs[run]);
      OwnerStep(norm, s, r, t.runs, t.requests[r]);
    case RefuseFinish(op, frozen, why, started) =>
      if RunFinishError(s.runs, started).Some? {
        QuietStep(norm, s, t, r);
      } else {
        RunFinishExtends(s.runs, started, Some(why));
        OwnerStep(norm, s, r, t.runs, t.requests[r]);
      }
  }

  lemma SettleKeepsInv(norm: Normaliser, s: State, r: RequestId, now: int, run: RunId, outcome: Outcome)
    requires Inv(norm, s) && Possible(s, Advance(r, now, run, outcome))
    requires s.requests[r].SettleOk? || s.requests[r].SettleErr?
    ensures Inv(norm, Progress(norm, s, r, now, run, outcome))
  {
    var t := Progress(norm, s, r, now, run, outcome);
    var p := s.requests[r];
    assert PhaseOk(s, p);
    if RunFinishError(s.runs, p.run).Some? {
      QuietStep(norm, s, t, r);
    } else {
      RunFinishExtends(s.runs, p.run, if p.SettleOk? then None else Some(p.why));
      OwnerStep(norm, s, r, t.runs, t.requests[r]);
    }
  }

  lemma LookupKeepsInv(norm: Normaliser, s: State, r: RequestId, now: int, run: RunId, outcome: Outcome)
    requires Inv(norm, s) && Possible(s, Advance(r, now, run, outcome))
    requires s.requests[r].Lookup? || s.requests[r].StartRun?
    ensures Inv(norm, Progress(norm, s, r, now, run, outcome))
  {
    var t := Progress(norm, s, r, now, run, outcome);
    assert PhaseOk(s, s.requests[r]);
    if s.requests[r].Lookup? {
      QuietStep(norm, s, t, r);
    } else {
      RunStartExtends(s.runs, run, t.runs[run]);
      OwnerStep(norm, s, r, t.runs, t.requests[r]);
    }
  }

  lemma DecideKeepsInv(norm: Normaliser, s: State, r: RequestId, now: int)
    requires Inv(norm, s) && r in s.requests && s.requests[r].Decide?
    ensures var p := s.requests[r]; Inv(norm, Gone(s, r).(ops := Finalize(s.ops, p.op, p.verdict, now)))
  {
    var p := s.requests[r];
    var t := Gone(s, r).(ops := Finalize(s.ops, p.op, p.verdict, now));
    assert PhaseOk(s, p);
    LocalStep(norm, s, t, r, p.op);
  }

  lemma ProgressKeepsInv(norm: Normaliser, s: State, r: RequestId, now: int, run: RunId, outcome: Outcome)
    requires Inv(norm, s) && Possible(s, Advance(r, now, run, outcome))
    ensures Inv(norm, Progress(norm, s, r, now, run, outcome))
  {
    match s.requests[r]
    case Invoke(_, _, _) => InvokeKeepsInv(norm, s, r, outcome);
    case Lookup(_, _) => LookupKeepsInv(norm, s, r, now, run, outcome);
    case StartRun(_, _) => LookupKeepsInv(norm, s, r, now, run, outcome);
    case RefuseStart(_, _, _) => RefuseKeepsInv(norm, s, r, now, run, outcome);
    case RefuseFinish(_, _, _, _) => RefuseKeepsInv(norm, s, r, now, run, outcome);
    case SettleOk(_, _, _, _) => SettleKeepsInv(norm, s, r, now, run, outcome);
    case SettleErr(_, _, _, _) => SettleKeepsInv(norm, s, r, now, run, outcome);
    case Decide(_, _, _) => DecideKeepsInv(norm, s, r, now);
    case _ => UnownedKeepsInv(norm, s, r, now, run, outcome);
  }

  /** Expiry, claim and rejection act only on a pending operation, which nobody owns. */
  lemma PendingStep(norm: Normaliser, s: State, t: State, r: RequestId, op: OpId, o: Operation)
    requires Inv(norm, s) && r in s.requests && s.requests[r].op == op && op in s.ops && s.ops[op].status == Pending
    requires o.frozen == s.ops[op].frozen && o.status in {Expired, Rejected, Executing}
    requires t == Gone(s, r).(ops := s.ops[op := o]) ||
             (t == At(s, r, Lookup(op, o.frozen)).(ops := s.ops[op := o]) && o.status == Executing)
    ensures Inv(norm, t)
  {
    assert OpOk(s, op);
    forall q | q in s.requests && q != r ensures !Owns(s.requests[q], op) {
      assert PhaseOk(s, s.requests[q]);
    }
    LocalStep(norm, s, t, r, op);
  }

  lemma UnownedKeepsInv(norm: Normaliser, s: State, r: RequestId, now: int, run: RunId, outcome: Outcome)
    requires Inv(norm, s) && Possible(s, Advance(r, now, run, outcome))
    requires !Owns(s.requests[r], s.requests[r].op)
    ensures Inv(norm, Progress(norm, s, r, now, run, outcome))
  {
    var p := s.requests[r];
    var op := p.op;
    var t := Progress(norm, s, r, now, run, outcome);
    if (p.ApproveExpire? || p.RejectExpire?) && Stale(s.ops, op, now) {
      PendingStep(norm, s, t, r, op, t.ops[op]);
    } else if (p.ApproveClaim? || p.RejectDecide?) && PendingError(s.ops, op).None? {
      PendingStep(norm, s, t, r, op, t.ops[op]);
    } else {
      QuietStep(norm, s, t, r);
    }
  }

  lemma RefusedInvokeKeepsInv(norm: Normaliser, s: State, r: RequestId, why: ErrorClass)
    requires Inv(norm, s) && r in s.requests && s.requests[r].Invoke? && !Refusal(why) && why != ExecutionFailed
    ensures var p := s.requests[r]; Inv(norm, At(s, r, SettleErr(p.op, p.frozen, p.run, why)))
  {
    var p := s.requests[r];
    assert PhaseOk(s, p);
    QuietStep(norm, s, At(s, r, SettleErr(p.op, p.frozen, p.run, why)), r);
  }

  lemma ValidatedInvokeKeepsInv(norm: Normaliser, s: State, r: RequestId, args: Args, outcome: Outcome)
    requires Inv(norm, s) && r in s.requests && s.requests[r].Invoke? && s.requests[r].frozen.tool in s.registry
    requires outcome.Raised? ==> outcome.why in {ValidationFailed, PermissionDenied, ExecutionFailed}
    requires var p := s.requests[r]; Validate(norm, s.registry[p.frozen.tool].schema, p.frozen.args) == Ok(args)
    ensures var p := s.requests[r]; Inv(norm, InvokeValidated(s, r, p.op, p.frozen, p.run, args, outcome))
  {
    var p := s.requests[r];
    var tool := s.registry[p.frozen.tool];
    assert PhaseOk(s, p);
    if tool.risk == HighRisk {
      RefusedInvokeKeepsInv(norm, s, r, PermissionDenied);
    } else {
      var next := if outcome.Returned? then SettleOk(p.op, p.frozen, p.run, outcome.reference)
        else SettleErr(p.op, p.frozen, p.run, outcome.why);
      CalledKeepsInv(norm, s, r, Call(p.op, p.frozen.tool, tool.version, tool.schema, args), next);
    }
  }

  lemma InvokeKeepsInv(norm: Normaliser, s: State, r: RequestId, outcome: Outcome)
    requires Inv(norm, s) && r in s.requests && s.requests[r].Invoke?
    requires outcome.Raised? ==> outcome.why in {ValidationFailed, PermissionDenied, ExecutionFailed}
    ensures var p := s.requests[r]; Inv(norm, InvokeTool(norm, s, r, p.op, p.frozen, p.run, outcome))
  {
    var p := s.requests[r];
    assert PhaseOk(s, p);
    match Validate(norm, s.registry[p.frozen.tool].schema, p.frozen.args)
    case Err(_) => RefusedInvokeKeepsInv(norm, s, r, ValidationFailed);
    case Ok(args) => ValidatedInvokeKeepsInv(norm, s, r, args, outcome);
  }

  lemma CalledKeepsInv(norm: Normaliser, s: State, r: RequestId, c: Call, p: Phase)
    requires Inv(norm, s) && r in s.requests && s.requests[r].Invoke? && Owns(s.requests[r], c.op)
    requires CallOk(norm, s, c) && p.op == c.op
    requires p.SettleOk? || (p.SettleErr? && !Refusal(p.why))
    requires p.frozen == s.requests[r].frozen && p.run == s.requests[r].run
    ensures Inv(norm, At(s.(calls := s.calls + [c]), r, p))
  {
    var t := At(s.(calls := s.calls + [c]), r, p);
    assert PhaseOk(s, s.requests[r]);
    assert t.calls[..|t.calls| - 1] == s.calls;
    assert CallsFor(t.calls, c.op) == 1;
    assert Elsewhere(s, t, c.op);
    LocalStep(norm, s, t, r, c.op);
  }

  lemma FaultKeepsInv(norm: Normaliser, s: State, r: RequestId)
    requires Inv(norm, s) && r in s.requests
    ensures Inv(norm, Broken(s, r))
  {
    assert PhaseOk(s, s.requests[r]);
    QuietStep(norm, s, Broken(s, r), r);
  }

  /** Every event keeps the invariant. */
  lemma NextKeepsInv(norm: Normaliser, s: State, e: Event)
    requires Inv(norm, s) && Possible(s, e)
    ensures Inv(norm, Next(norm, s, e))
  {
    match e
    case Freeze(op, frozen) => FreezeKeepsInv(norm, s, op, frozen);
    case Arrive(r, op, approve) => QuietStep(norm, s, At(s, r, if approve then ApproveExpire(op) else RejectExpire(op)),
                                             r);
    case Advance(r, now, run, outcome) => ProgressKeepsInv(norm, s, r, now, run, outcome);
    case Fault(r) => FaultKeepsInv(norm, s, r);
    case Restart(registry) => RestartKeepsInv(norm, s, registry);
  }

  /** Only the position of request `r` changes, and not towards a new claim. */
  lemma QuietStep(norm: Normaliser, s: State, t: State, r: RequestId)
    requires Inv(norm, s) && t == s.(requests := t.requests)
    requires forall q :: q in t.requests && q != r ==> q in s.requests && t.requests[q] == s.requests[q]
    requires r in t.requests ==> PhaseOk(t, t.requests[r])
    requires r in t.requests && Owns(t.requests[r], t.requests[r].op) ==>
               r in s.requests && Owns(s.requests[r], t.requests[r].op)
    ensures Inv(norm, t)
  {
    forall q | q in t.requests ensures PhaseOk(t, t.requests[q]) {
      if q != r {
        assert PhaseOk(s, s.requests[q]);
      }
    }
    forall k | k in t.ops ensures OpOk(t, k) {
      assert OpOk(s, k);
    }
    forall c | c in t.calls ensures CallOk(norm, t, c) {
      assert CallOk(norm, s, c);
    }
  }

  lemma FreezeKeepsInv(norm: Normaliser, s: State, op: OpId, frozen: Frozen)
    requires Inv(norm, s) && op !in s.ops
    ensures Inv(norm, s.(ops := s.ops[op := Created(frozen)]))
  {
    var t := s.(ops := s.ops[op := Created(frozen)]);
    UnknownHasNoCalls(norm, s, op);
    forall k | k in t.ops ensures OpOk(t, k) {
      if k != op {
        assert OpOk(s, k);
      }
    }
    forall q | q in t.requests ensures PhaseOk(t, t.requests[q]) {
      assert PhaseOk(s, s.requests[q]);
    }
    forall c | c in t.calls ensures CallOk(norm, t, c) {
      assert CallOk(norm, s, c);
    }
  }

  lemma UnknownHasNoCalls(norm: Normaliser, s: State, op: OpId)
    requires Inv(norm, s) && op !in s.ops
    ensures CallsFor(s.calls, op) == 0
  {
    forall c | c in s.calls ensures c.op != op {
      assert CallOk(norm, s, c);
    }
    NoSuchCalls(s.calls, op);
  }

  lemma {:induction false} NoSuchCalls(calls: seq<Call>, op: OpId)
    requires forall c :: c in calls ==> c.op != op
    ensures CallsFor(calls, op) == 0
  {
    if calls != [] {
      NoSuchCalls(calls[..|calls| - 1], op);
    }
  }

  lemma RestartKeepsInv(norm: Normaliser, s: State, registry: Registry)
    requires Inv(norm, s)
    ensures Inv(norm, s.(requests := map[], registry := registry))
  {
    var t := s.(requests := map[], registry := registry);
    forall k | k in t.ops ensures OpOk(t, k) {
      assert OpOk(s, k);
    }
    forall c | c in t.calls ensures CallOk(norm, t, c) {
      assert CallOk(norm, s, c);
    }
  }

  // ----- whole runs ------------------------------------------------------------------

  const INITIAL: State := State(map[], map[], map[], map[], [])

  /** `u` is reached from `s` by some interleaving `es` of possible events. */
  ghost predicate Reaches(norm: Normaliser, s: State, es: seq<Event>, u: State)
    decreases |es|
  {
    if es == [] then u == s
    else Possible(s, es[0]) && Reaches(norm, Next(norm, s, es[0]), es[1..], u)
  }

  lemma {:induction false} ReachableInv(norm: Normaliser, s: State, es: seq<Event>, u: State)
    requires Inv(norm, s) && Reaches(norm, s, es, u)
    ensures Inv(norm, u)
    decreases |es|
  {
    if es != [] {
      NextKeepsInv(norm, s, es[0]);
      ReachableInv(norm, Next(norm, s, es[0]), es[1..], u);
    }
  }

  /** At most once: in every interleaving of approvals, rejections, expiries, storage
      faults and restarts, an operation's executor is entered at most once; never for a
      pending, rejected or expired one, never when approval was refused, exactly once for
      a succeeded one, which then points to a succeeded Run of the same tool and version. */
  lemma AtMostOnce(norm: Normaliser, es: seq<Event>, s: State, op: OpId)
    requires Reaches(norm, INITIAL, es, s) && op in s.ops
    ensures CallsFor(s.calls, op) <= 1
    ensures s.ops[op].status in {Pending, Rejected, Expired} ==> CallsFor(s.calls, op) == 0
    ensures s.ops[op].status == Failed && s.ops[op].error in {Some(ToolNotFound), Some(VersionMismatch)} ==>
              CallsFor(s.calls, op) == 0
    ensures s.ops[op].status == Failed && s.ops[op].error == Some(ExecutionFailed) ==> CallsFor(s.calls, op) == 1
    ensures s.ops[op].status == Succeeded ==>
              && CallsFor(s.calls, op) == 1
              && s.ops[op].resultRun.Some? && s.ops[op].resultRun.value in s.runs
              && s.runs[s.ops[op].resultRun.value].status == RunSucceeded
              && s.runs[s.ops[op].resultRun.value].tool == s.ops[op].frozen.tool
              && s.runs[s.ops[op].resultRun.value].version == s.ops[op].frozen.version
  {
    ReachableInv(norm, INITIAL, es, s);
    assert OpOk(s, op);
  }

  /** Every executor call ran the reviewed tool at the reviewed version; when the
      frozen arguments are in validated form it received exactly those. */
  lemma OnlyWhatWasReviewed(norm: Normaliser, es: seq<Event>, s: State, c: Call)
    requires Reaches(norm, INITIAL, es, s) && c in s.calls
    ensures c.op in s.ops && c.tool == s.ops[c.op].frozen.tool && s.ops[c.op].frozen.version == Some(c.version)
    ensures Validate(norm, c.schema, s.ops[c.op].frozen.args) == Ok(c.args)
    ensures Validate(norm, c.schema, s.ops[c.op].frozen.args) == Ok(s.ops[c.op].frozen.args) ==>
              c.args == s.ops[c.op].frozen.args
  {
    ReachableInv(norm, INITIAL, es, s);
    assert CallOk(norm, s, c);
  }

  /** A write call frozen after validation is executed on the very arguments that were
      shown, although the executor validates them again. */
  lemma ReviewedArgumentsRun(norm: Normaliser, es: seq<Event>, s: State, c: Call, raw: Args)
    requires Reaches(norm, INITIAL, es, s) && c in s.calls && IsoNormaliser(norm)
    requires c.schema == TASKS_CREATE && c.op in s.ops
    requires Validate(norm, TASKS_CREATE, raw) == Ok(s.ops[c.op].frozen.args)
    ensures c.args == s.ops[c.op].frozen.args
  {
    OnlyWhatWasReviewed(norm, es, s, c);
    TasksCreateIsProjection(norm, raw, s.ops[c.op].frozen.args);
  }

  /** The claim winner's final update always finds its row. */
  lemma FinalizeAlwaysLands(norm: Normaliser, es: seq<Event>, s: State, r: RequestId)
    requires Reaches(norm, INITIAL, es, s) && r in s.requests && s.requests[r].Decide?
    ensures CanFinalize(s.ops, s.requests[r].op) && Terminal(s.requests[r].verdict.status)
  {
    ReachableInv(norm, INITIAL, es, s);
    assert PhaseOk(s, s.requests[r]);
  }

  /** No row disappears, the frozen part never changes and a terminal row never changes at all. */
  ghost predicate OpsHistory(a: Ops, b: Ops) {
    forall op :: op in a ==>
      op in b && b[op].frozen == a[op].frozen && (Terminal(a[op].status) ==> b[op] == a[op])
  }

  ghost predicate History(s: State, u: State) {
    OpsHistory(s.ops, u.ops) && s.calls <= u.calls
  }

  lemma TransactionsKeepHistory(ops: Ops, op: OpId, v: Verdict, now: int)
    ensures OpsHistory(ops, Expire(ops, op, now)) && OpsHistory(ops, Claim(ops, op, now))
    ensures OpsHistory(ops, Reject(ops, op, now)) && OpsHistory(ops, Finalize(ops, op, v, now))
  {
  }

  lemma InvokeKeepsHistory(norm: Normaliser, s: State, r: RequestId, op: OpId, frozen: Frozen, run: RunId,
                           outcome: Outcome)
    ensures History(s, InvokeTool(norm, s, r, op, frozen, run, outcome))
  {
  }

  lemma OwnerKeepsHistory(norm: Normaliser, s: State, r: RequestId, now: int, run: RunId, outcome: Outcome)
    requires r in s.requests && Owns(s.requests[r], s.requests[r].op)
    ensures History(s, Progress(norm, s, r, now, run, outcome))
  {
    match s.requests[r]
    case Invoke(op, frozen, started) => InvokeKeepsHistory(norm, s, r, op, frozen, started, outcome);
    case Decide(op, _, verdict) => TransactionsKeepHistory(s.ops, op, verdict, now);
    case _ =>
  }

  lemma ProgressKeepsHistory(norm: Normaliser, s: State, r: RequestId, now: int, run: RunId, outcome: Outcome)
    requires r in s.requests
    ensures History(s, Progress(norm, s, r, now, run, outcome))
  {
    if Owns(s.requests[r], s.requests[r].op) {
      OwnerKeepsHistory(norm, s, r, now, run, outcome);
    } else {
      TransactionsKeepHistory(s.ops, s.requests[r].op, Failure(StorageFailed), now);
    }
  }

  lemma NextKeepsHistory(norm: Normaliser, s: State, e: Event)
    requires Possible(s, e)
    ensures History(s, Next(norm, s, e))
  {
    match e
    case Advance(r, now, run, outcome) => ProgressKeepsHistory(norm, s, r, now, run, outcome);
    case _ =>
  }

  lemma {:induction false} TerminalIsFinal(norm: Normaliser, s: State, es: seq<Event>, u: State)
    requires Reaches(norm, s, es, u)
    ensures History(s, u)
    decreases |es|
  {
    if es != [] {
      var t := Next(norm, s, es[0]);
      NextKeepsHistory(norm, s, es[0]);
      TerminalIsFinal(norm, t, es[1..], u);
    }
  }

  // ----- when a failed operation executed --------------------------------------------------

  /** What the executor boundary asks before it enters the executor. */
  predicate Admits(norm: Normaliser, registry: Registry, frozen: Frozen) {
    && frozen.tool in registry && registry[frozen.tool].risk != HighRisk
    && Validate(norm, registry[frozen.tool].schema, frozen.args).Ok?
  }

  lemma CallsPush(calls: seq<Call>, c: Call, op: OpId)
    ensures CallsFor(calls + [c], op) == CallsFor(calls, op) + if c.op == op then 1 else 0
  {
    assert (calls + [c])[..|calls|] == calls;
  }

  /** At the Invoke step the executor is entered exactly when the frozen arguments still validate and the tool
      is not high risk; nobody else's count changes. */
  lemma InvokeEntersExactly(norm: Normaliser, s: State, r: RequestId, op: OpId, frozen: Frozen, run: RunId,
                            outcome: Outcome, k: OpId)
    ensures CallsFor(InvokeTool(norm, s, r, op, frozen, run, outcome).calls, k) ==
              CallsFor(s.calls, k) + if k == op && Admits(norm, s.registry, frozen) then 1 else 0
  {
    if Admits(norm, s.registry, frozen) {
      var tool := s.registry[frozen.tool];
      var args := Validate(norm, tool.schema, frozen.args).value;
      CallsPush(s.calls, Call(op, frozen.tool, tool.version, tool.schema, args), k);
    }
  }

  /** What an error class says about the executor, given the registry in force. */
  ghost predicate Explains(norm: Normaliser, s: State, op: OpId, frozen: Frozen, why: ErrorClass) {
    match why
    case ToolNotFound => CallsFor(s.calls, op) == 0
    case VersionMismatch => CallsFor(s.calls, op) == 0
    case StorageFailed => CallsFor(s.calls, op) == 1 ==> Admits(norm, s.registry, frozen)
    case ExecutionFailed => CallsFor(s.calls, op) == 1 && Admits(norm, s.registry, frozen)
    case _ => CallsFor(s.calls, op) == 1 <==> Admits(norm, s.registry, frozen)
  }

  ghost predicate PhaseExplained(norm: Normaliser, s: State, p: Phase) {
    match p
    case SettleOk(op, frozen, _, _) => Admits(norm, s.registry, frozen)
    case SettleErr(op, frozen, _, why) => why != StorageFailed && Explains(norm, s, op, frozen, why)
    case Decide(op, frozen, v) => v.status == Failed && v.error.Some? ==> Explains(norm, s, op, frozen, v.error.value)
    case _ => true
  }

  ghost predicate OpExplained(norm: Normaliser, s: State, op: OpId) {
    op in s.ops && s.ops[op].status == Failed && s.ops[op].error.Some? ==>
      Explains(norm, s, op, s.ops[op].frozen, s.ops[op].error.value)
  }

  /** Everything decided since the last restart is explained; `earlier` had left Pending before it. */
  ghost predicate Explained(norm: Normaliser, s: State, earlier: set<OpId>) {
    && (forall r :: r in s.requests ==> PhaseExplained(norm, s, s.requests[r]))
    && (forall r :: r in s.requests && Owns(s.requests[r], s.requests[r].op) ==> s.requests[r].op !in earlier)
    && (forall op :: op in s.ops && op !in earlier ==> OpExplained(norm, s, op))
    && (forall op :: op in earlier ==> op in s.ops && s.ops[op].status != Pending)
  }

  /** `t` differs from `s` only in request `r`, operation `op` and the calls made for it. */
  ghost predicate OnlyTouches(s: State, t: State, r: RequestId, op: OpId) {
    && t.registry == s.registry && s.ops.Keys <= t.ops.Keys
    && (forall k :: k != op ==> CallsFor(t.calls, k) == CallsFor(s.calls, k))
    && (forall k :: k in t.ops && k != op ==> k in s.ops && t.ops[k] == s.ops[k])
    && (forall q :: q in t.requests && q != r ==> q in s.requests && t.requests[q] == s.requests[q])
    && (forall q :: q in s.requests && q != r && Owns(s.requests[q], op) ==>
             CallsFor(t.calls, op) == CallsFor(s.calls, op))
  }

  lemma PhaseExplainedElsewhere(norm: Normaliser, s: State, t: State, r: RequestId, op: OpId, q: RequestId)
    requires OnlyTouches(s, t, r, op) && q in t.requests && q != r && PhaseExplained(norm, s, s.requests[q])
    ensures PhaseExplained(norm, t, t.requests[q])
  {
    var p := t.requests[q];
    assert p.op != op || !Owns(p, op) || CallsFor(t.calls, op) == CallsFor(s.calls, op);
  }

  lemma LocalStepExplained(norm: Normaliser, s: State, t: State, r: RequestId, op: OpId, earlier: set<OpId>)
    requires Explained(norm, s, earlier) && OnlyTouches(s, t, r, op)
    requires r in t.requests ==> t.requests[r].op == op && PhaseExplained(norm, t, t.requests[r])
    requires r in t.requests && Owns(t.requests[r], op) ==> op !in earlier
    requires op in t.ops && op !in earlier ==> OpExplained(norm, t, op)
    requires op in earlier ==> t.ops[op].status != Pending
    ensures Explained(norm, t, earlier)
  {
    forall q | q in t.requests
      ensures PhaseExplained(norm, t, t.requests[q])
    {
      if q != r {
        PhaseExplainedElsewhere(norm, s, t, r, op, q);
      }
    }
    forall k | k in t.ops && k !in earlier
      ensures OpExplained(norm, t, k)
    {
      if k != op {
        assert OpExplained(norm, s, k);
      }
    }
  }

  /** Steps of request `r` that make no call and change no operation. */
  lemma QuietExplained(norm: Normaliser, s: State, t: State, r: RequestId, earlier: set<OpId>)
    requires Inv(norm, s) && Explained(norm, s, earlier) && r in s.requests
    requires t.registry == s.registry && t.ops == s.ops && t.calls == s.calls
    requires forall q :: q in t.requests && q != r ==> q in s.requests && t.requests[q] == s.requests[q]
    requires r in t.requests ==> t.requests[r].op == s.requests[r].op && PhaseExplained(norm, t, t.requests[r])
    requires r in t.requests && Owns(t.requests[r], t.requests[r].op) ==> Owns(s.requests[r], s.requests[r].op)
    ensures Explained(norm, t, earlier)
  {
    var op := s.requests[r].op;
    if op in s.ops && op !in earlier {
      assert OpExplained(norm, s, op);
    }
    LocalStepExplained(norm, s, t, r, op, earlier);
  }

  lemma FaultExplained(norm: Normaliser, s: State, r: RequestId, earlier: set<OpId>)
    requires Inv(norm, s) && Explained(norm, s, earlier) && r in s.requests
    ensures Explained(norm, Broken(s, r), earlier)
  {
    assert PhaseOk(s, s.requests[r]) && PhaseExplained(norm, s, s.requests[r]);
    QuietExplained(norm, s, Broken(s, r), r, earlier);
  }

  /** Request `r` moves on; only Run rows change besides. */
  lemma MoveExplained(norm: Normaliser, s: State, r: RequestId, runs: Runs, p: Phase, earlier: set<OpId>)
    requires Inv(norm, s) && Explained(norm, s, earlier) && r in s.requests && p.op == s.requests[r].op
    requires PhaseExplained(norm, s, p) && Owns(s.requests[r], p.op)
    ensures Explained(norm, At(s, r, p).(runs := runs), earlier)
  {
    var t := At(s, r, p).(runs := runs);
    assert PhaseExplained(norm, t, p);
    QuietExplained(norm, s, t, r, earlier);
  }

  lemma LeaveExplained(norm: Normaliser, s: State, r: RequestId, earlier: set<OpId>)
    requires Inv(norm, s) && Explained(norm, s, earlier) && r in s.requests
    ensures Explained(norm, Gone(s, r), earlier)
  {
    QuietExplained(norm, s, Gone(s, r), r, earlier);
  }

  lemma SettleExplained(norm: Normaliser, s: State, r: RequestId, now: int, run: RunId, outcome: Outcome,
                        earlier: set<OpId>)
    requires Inv(norm, s) && Explained(norm, s, earlier) && Possible(s, Advance(r, now, run, outcome))
    requires s.requests[r].SettleOk? || s.requests[r].SettleErr?
    ensures Explained(norm, Progress(norm, s, r, now, run, outcome), earlier)
  {
    assert PhaseOk(s, s.requests[r]) && PhaseExplained(norm, s, s.requests[r]);
    var t := Progress(norm, s, r, now, run, outcome);
    if r in t.requests {
      MoveExplained(norm, s, r, t.runs, t.requests[r], earlier);
    } else {
      LeaveExplained(norm, s, r, earlier);
    }
  }

  lemma RefuseExplained(norm: Normaliser, s: State, r: RequestId, now: int, run: RunId, outcome: Outcome,
                        earlier: set<OpId>)
    requires Inv(norm, s) && Explained(norm, s, earlier) && Possible(s, Advance(r, now, run, outcome))
    requires s.requests[r].RefuseStart? || s.requests[r].RefuseFinish?
    ensures Explained(norm, Progress(norm, s, r, now, run, outcome), earlier)
  {
    assert PhaseOk(s, s.requests[r]);
    var t := Progress(norm, s, r, now, run, outcome);
    if r in t.requests {
      MoveExplained(norm, s, r, t.runs, t.requests[r], earlier);
    } else {
      LeaveExplained(norm, s, r, earlier);
    }
  }

  lemma LookupExplained(norm: Normaliser, s: State, r: RequestId, now: int, run: RunId, outcome: Outcome,
                        earlier: set<OpId>)
    requires Inv(norm, s) && Explained(norm, s, earlier) && Possible(s, Advance(r, now, run, outcome))
    requires s.requests[r].Lookup? || s.requests[r].StartRun?
    ensures Explained(norm, Progress(norm, s, r, now, run, outcome), earlier)
  {
    assert PhaseOk(s, s.requests[r]);
    var t := Progress(norm, s, r, now, run, outcome);
    if r in t.requests {
      MoveExplained(norm, s, r, t.runs, t.requests[r], earlier);
    } else {
      LeaveExplained(norm, s, r, earlier);
    }
  }

  lemma DecideExplained(norm: Normaliser, s: State, r: RequestId, now: int, earlier: set<OpId>)
    requires Inv(norm, s) && Explained(norm, s, earlier) && r in s.requests && s.requests[r].Decide?
    ensures var p := s.requests[r];
            Explained(norm, Gone(s, r).(ops := Finalize(s.ops, p.op, p.verdict, now)), earlier)
  {
    var p := s.requests[r];
    assert PhaseOk(s, p) && PhaseExplained(norm, s, p);
    LocalStepExplained(norm, s, Gone(s, r).(ops := Finalize(s.ops, p.op, p.verdict, now)), r, p.op, earlier);
  }

  lemma InvokedPhase(norm: Normaliser, s: State, r: RequestId, outcome: Outcome)
    requires Inv(norm, s) && r in s.requests && s.requests[r].Invoke?
    requires outcome.Raised? ==> outcome.why in {ValidationFailed, PermissionDenied, ExecutionFailed}
    ensures var p := s.requests[r];
            var t := InvokeTool(norm, s, r, p.op, p.frozen, p.run, outcome);
            t.requests[r].op == p.op && PhaseExplained(norm, t, t.requests[r])
  {
    var p := s.requests[r];
    assert PhaseOk(s, p);
    InvokeEntersExactly(norm, s, r, p.op, p.frozen, p.run, outcome, p.op);
    InvokeShape(norm, s, r, p.op, p.frozen, p.run, outcome);
  }

  lemma InvokeTouches(norm: Normaliser, s: State, r: RequestId, outcome: Outcome)
    requires Inv(norm, s) && r in s.requests && s.requests[r].Invoke?
    ensures var p := s.requests[r]; OnlyTouches(s, InvokeTool(norm, s, r, p.op, p.frozen, p.run, outcome), r, p.op)
  {
    var p := s.requests[r];
    var t := InvokeTool(norm, s, r, p.op, p.frozen, p.run, outcome);
    forall k | k != p.op
      ensures CallsFor(t.calls, k) == CallsFor(s.calls, k)
    {
      InvokeEntersExactly(norm, s, r, p.op, p.frozen, p.run, outcome, k);
    }
    InvokeShape(norm, s, r, p.op, p.frozen, p.run, outcome);
  }

  lemma InvokeExplained(norm: Normaliser, s: State, r: RequestId, outcome: Outcome, earlier: set<OpId>)
    requires Inv(norm, s) && Explained(norm, s, earlier) && r in s.requests && s.requests[r].Invoke?
    requires outcome.Raised? ==> outcome.why in {ValidationFailed, PermissionDenied, ExecutionFailed}
    ensures var p := s.requests[r];
            Explained(norm, InvokeTool(norm, s, r, p.op, p.frozen, p.run, outcome), earlier)
  {
    var p := s.requests[r];
    assert PhaseOk(s, p);
    InvokeTouches(norm, s, r, outcome);
    InvokedPhase(norm, s, r, outcome);
    InvokeShape(norm, s, r, p.op, p.frozen, p.run, outcome);
    LocalStepExplained(norm, s, InvokeTool(norm, s, r, p.op, p.frozen, p.run, outcome), r, p.op, earlier);
  }

  /** Where the Invoke step leaves the request. */
  lemma InvokeShape(norm: Normaliser, s: State, r: RequestId, op: OpId, frozen: Frozen, run: RunId, outcome: Outcome)
    ensures var t := InvokeTool(norm, s, r, op, frozen, run, outcome);
            && t == s.(requests := t.requests, calls := t.calls) && r in t.requests
            && t.requests == s.requests[r := t.requests[r]]
            && (t.requests[r].SettleOk? || t.requests[r].SettleErr?)
            && t.requests[r].op == op && t.requests[r].frozen == frozen
            && (t.requests[r].SettleOk? ==> Admits(norm, s.registry, frozen))
            && (t.requests[r].SettleErr? ==>
                  t.requests[r].why ==
                    if frozen.tool !in s.registry then ExecutionFailed
                    else if Validate(norm, s.registry[frozen.tool].schema, frozen.args).Err? then ValidationFailed
                    else if s.registry[frozen.tool].risk == HighRisk then PermissionDenied
                    else if outcome.Raised? then outcome.why else ExecutionFailed)
  {
  }

  /** Expiry, claim and rejection touch at most their own pending operation and never fail it. */
  lemma UnownedTouches(norm: Normaliser, s: State, r: RequestId, now: int, run: RunId, outcome: Outcome)
    requires Possible(s, Advance(r, now, run, outcome)) && !Owns(s.requests[r], s.requests[r].op)
    ensures var t, op := Progress(norm, s, r, now, run, outcome), s.requests[r].op;
            && OnlyTouches(s, t, r, op)
            && (r in t.requests ==> t.requests[r].op == op && !t.requests[r].Decide?)
            && (r in t.requests ==> !t.requests[r].SettleErr? && !t.requests[r].SettleOk?)
            && (r in t.requests && Owns(t.requests[r], op) ==> op in s.ops && s.ops[op].status == Pending)
            && (op in t.ops ==>
                  && op in s.ops
                  && (t.ops[op] == s.ops[op] ||
                      (s.ops[op].status == Pending && t.ops[op].status in {Expired, Rejected, Executing})))
  {
  }

  lemma UnownedExplained(norm: Normaliser, s: State, r: RequestId, now: int, run: RunId, outcome: Outcome,
                         earlier: set<OpId>)
    requires Inv(norm, s) && Explained(norm, s, earlier) && Possible(s, Advance(r, now, run, outcome))
    requires !Owns(s.requests[r], s.requests[r].op)
    ensures Explained(norm, Progress(norm, s, r, now, run, outcome), earlier)
  {
    var t, op := Progress(norm, s, r, now, run, outcome), s.requests[r].op;
    UnownedTouches(norm, s, r, now, run, outcome);
    assert t.calls == s.calls;
    if op in s.ops && op !in earlier {
      assert OpExplained(norm, s, op);
    }
    LocalStepExplained(norm, s, t, r, op, earlier);
  }

  lemma NextExplained(norm: Normaliser, s: State, e: Event, earlier: set<OpId>)
    requires Inv(norm, s) && Explained(norm, s, earlier) && Possible(s, e) && !e.Restart?
    ensures Explained(norm, Next(norm, s, e), earlier)
  {
    match e
    case Freeze(op, frozen) =>
      var t := Next(norm, s, e);
      forall k | k in t.ops && k !in earlier
        ensures OpExplained(norm, t, k)
      {
        if k != op {
          assert OpExplained(norm, s, k);
        }
      }
      forall q | q in t.requests
        ensures PhaseExplained(norm, t, t.requests[q])
      {
        assert PhaseExplained(norm, s, s.requests[q]);
      }
    case Arrive(r, op, approve) => ArriveExplained(norm, s, r, op, approve, earlier);
    case Fault(r) => FaultExplained(norm, s, r, earlier);
    case Advance(r, now, run, outcome) =>
      if !Owns(s.requests[r], s.requests[r].op) {
        UnownedExplained(norm, s, r, now, run, outcome, earlier);
      } else if s.requests[r].Invoke? {
        InvokeExplained(norm, s, r, outcome, earlier);
      } else if s.requests[r].Decide? {
        DecideExplained(norm, s, r, now, earlier);
      } else if s.requests[r].SettleOk? || s.requests[r].SettleErr? {
        SettleExplained(norm, s, r, now, run, outcome, earlier);
      } else if s.requests[r].Lookup? || s.requests[r].StartRun? {
        LookupExplained(norm, s, r, now, run, outcome, earlier);
      } else {
        RefuseExplained(norm, s, r, now, run, outcome, earlier);
      }
  }

  lemma ArriveExplained(norm: Normaliser, s: State, r: RequestId, op: OpId, approve: bool, earlier: set<OpId>)
    requires Explained(norm, s, earlier) && r !in s.requests
    ensures Explained(norm, At(s, r, if approve then ApproveExpire(op) else RejectExpire(op)), earlier)
  {
    var t := At(s, r, if approve then ApproveExpire(op) else RejectExpire(op));
    if op in s.ops && op !in earlier {
      assert OpExplained(norm, s, op);
    }
    LocalStepExplained(norm, s, t, r, op, earlier);
  }

  ghost predicate NoRestart(es: seq<Event>) {
    forall e :: e in es ==> !e.Restart?
  }

  lemma {:induction false} RunExplained(norm: Normaliser, s: State, es: seq<Event>, u: State, earlier: set<OpId>)
    requires Inv(norm, s) && Explained(norm, s, earlier) && Reaches(norm, s, es, u) && NoRestart(es)
    ensures Explained(norm, u, earlier)
    decreases |es|
  {
    if es != [] {
      NextExplained(norm, s, es[0], earlier);
      NextKeepsInv(norm, s, es[0]);
      RunExplained(norm, Next(norm, s, es[0]), es[1..], u, earlier);
    }
  }

  /** When a failed operation executed. Let `s` follow a restart, in which no request survives, and let `op` be
      decided before the next one. Then the error class and the registry in force tell whether the executor ran:
      never for the two refusals, exactly once for a failed execution, and for failed validation or permission
      exactly when the executor boundary admits the frozen call, that is, when the tool itself raised them. A
      storage failure can hide an execution only of an admitted call. */
  lemma FailedExecutedExactly(norm: Normaliser, before: seq<Event>, s: State, es: seq<Event>, u: State, op: OpId)
    requires Reaches(norm, INITIAL, before, s) && s.requests == map[] && Reaches(norm, s, es, u) && NoRestart(es)
    requires op in u.ops && u.ops[op].status == Failed && (op in s.ops ==> s.ops[op].status == Pending)
    ensures u.ops[op].error.Some? && CallsFor(u.calls, op) <= 1
    ensures u.ops[op].error.value in {ToolNotFound, VersionMismatch} ==> CallsFor(u.calls, op) == 0
    ensures u.ops[op].error.value == ExecutionFailed ==> CallsFor(u.calls, op) == 1
    ensures u.ops[op].error.value in {ValidationFailed, PermissionDenied} ==>
              (CallsFor(u.calls, op) == 1 <==> Admits(norm, u.registry, u.ops[op].frozen))
    ensures u.ops[op].error.value == StorageFailed && !Admits(norm, u.registry, u.ops[op].frozen) ==>
              CallsFor(u.calls, op) == 0
  {
    ReachableInv(norm, INITIAL, before, s);
    ReachableInv(norm, s, es, u);
    var earlier := set k | k in s.ops && s.ops[k].status != Pending;
    RunExplained(norm, s, es, u, earlier);
    assert OpOk(u, op) && OpExplained(norm, u, op);
  }

  // ----- what `failed` does not promise -------------------------------------------------

  lemma {:induction false} ReachFurther(norm: Normaliser, s: State, es: seq<Event>, t: State, e: Event)
    requires Reaches(norm, s, es, t) && Possible(t, e)
    ensures Reaches(norm, s, es + [e], Next(norm, t, e))
    decreases |es|
  {
    if es == [] {
      assert ([] + [e])[1..] == [];
    } else {
      ReachFurther(norm, Next(norm, s, es[0]), es[1..], t, e);
      assert (es + [e])[1..] == es[1..] + [e];
    }
  }

  const TOOL: Tool := Tool("1", InternalWrite, Schema([], [], false), {}, {})
  const REVIEWED: Frozen := Frozen("t", Some("1"), map[], None, None, 0, None)

  ghost predicate OneRequest(s: State, p: Phase) {
    && s.requests == map[0 := p] && s.calls == [] && s.registry == map["t" := TOOL]
    && s.ops.Keys == {"op"} && s.ops["op"].frozen == REVIEWED
  }

  /** One approval arrives for one frozen operation. */
  lemma ApprovalArrives(norm: Normaliser) returns (es: seq<Event>, s: State)
    ensures Reaches(norm, INITIAL, es, s) && OneRequest(s, ApproveExpire("op")) && s.ops["op"].status == Pending
    ensures s.runs == map[]
  {
    es, s := [], INITIAL;
    ReachFurther(norm, INITIAL, es, s, Restart(map["t" := TOOL]));
    es, s := es + [Restart(map["t" := TOOL])], Next(norm, s, Restart(map["t" := TOOL]));
    ReachFurther(norm, INITIAL, es, s, Freeze("op", REVIEWED));
    es, s := es + [Freeze("op", REVIEWED)], Next(norm, s, Freeze("op", REVIEWED));
    ReachFurther(norm, INITIAL, es, s, Arrive(0, "op", true));
    es, s := es + [Arrive(0, "op", true)], Next(norm, s, Arrive(0, "op", true));
  }

  lemma ApprovalClaims(norm: Normaliser) returns (es: seq<Event>, s: State)
    ensures Reaches(norm, INITIAL, es, s) && OneRequest(s, Lookup("op", REVIEWED)) && s.ops["op"].status == Executing
    ensures s.runs == map[]
  {
    var go := Advance(0, 1, "run", Returned(None));
    es, s := ApprovalArrives(norm);
    ReachFurther(norm, INITIAL, es, s, go);
    es, s := es + [go], Next(norm, s, go);
    assert s.requests == map[0 := ApproveClaim("op")];
    ReachFurther(norm, INITIAL, es, s, go);
    es, s := es + [go], Next(norm, s, go);
  }

  /** One undisturbed approval up to the point where it enters the executor. */
  lemma ApprovalReachesExecutor(norm: Normaliser) returns (es: seq<Event>, s: State)
    ensures Reaches(norm, INITIAL, es, s) && OneRequest(s, Invoke("op", REVIEWED, "run"))
    ensures s.ops["op"].status == Executing && s.runs == map["run" := Run("t", Some("1"), RunStarted, None)]
  {
    var go := Advance(0, 1, "run", Returned(None));
    es, s := ApprovalClaims(norm);
    ReachFurther(norm, INITIAL, es, s, go);
    es, s := es + [go], Next(norm, s, go);
    assert s.requests == map[0 := StartRun("op", REVIEWED)];
    ReachFurther(norm, INITIAL, es, s, go);
    es, s := es + [go], Next(norm, s, go);
  }

  /** The executor returns. */
  lemma ExecutorReturns(norm: Normaliser) returns (es: seq<Event>, s: State)
    ensures Reaches(norm, INITIAL, es, s) && s.requests == map[0 := SettleOk("op", REVIEWED, "run", None)]
    ensures s.runs.Keys == {"run"}
    ensures "op" in s.ops && s.ops["op"].status == Executing && CallsFor(s.calls, "op") == 1
  {
    var go := Advance(0, 1, "other", Returned(None));
    es, s := ApprovalReachesExecutor(norm);
    EmptySchemaAcceptsNothing(norm, TOOL.schema);
    ReachFurther(norm, INITIAL, es, s, go);
    es, s := es + [go], InvokeValidated(s, 0, "op", REVIEWED, "run", map[], Returned(None));
    assert s.calls == [Call("op", "t", "1", TOOL.schema, map[])];
    assert s.calls[..0] == [];
  }

  /** A failed operation may have executed: the executor returns, then recording its Run fails. */
  lemma FailedMayHaveExecuted(norm: Normaliser) returns (es: seq<Event>, s: State)
    ensures Reaches(norm, INITIAL, es, s)
    ensures "op" in s.ops && s.ops["op"].status == Failed && s.ops["op"].error == Some(StorageFailed)
    ensures CallsFor(s.calls, "op") == 1
  {
    var go := Advance(0, 1, "other", Returned(None));
    es, s := ExecutorReturns(norm);
    ReachFurther(norm, INITIAL, es, s, Fault(0));
    es, s := es + [Fault(0)], Next(norm, s, Fault(0));
    ReachFurther(norm, INITIAL, es, s, go);
    es, s := es + [go], Next(norm, s, go);
  }

  /** The same class without an execution, for the same admitted call: starting the Run fails. */
  lemma StorageFailureMayPrecedeExecution(norm: Normaliser) returns (es: seq<Event>, s: State)
    ensures Reaches(norm, INITIAL, es, s)
    ensures "op" in s.ops && s.ops["op"].status == Failed && s.ops["op"].error == Some(StorageFailed)
    ensures CallsFor(s.calls, "op") == 0 && s.ops["op"].frozen == REVIEWED && Admits(norm, s.registry, REVIEWED)
  {
    var go := Advance(0, 1, "run", Returned(None));
    es, s := ApprovalClaims(norm);
    ReachFurther(norm, INITIAL, es, s, go);
    es, s := es + [go], Next(norm, s, go);
    assert s.requests == map[0 := StartRun("op", REVIEWED)];
    ReachFurther(norm, INITIAL, es, s, Fault(0));
    es, s := es + [Fault(0)], Next(norm, s, Fault(0));
    assert s.requests == map[0 := Decide("op", REVIEWED, Failure(StorageFailed))];
    ReachFurther(norm, INITIAL, es, s, go);
    es, s := es + [go], Next(norm, s, go);
    EmptySchemaAcceptsNothing(norm, TOOL.schema);
  }
}
