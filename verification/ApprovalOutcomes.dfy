/** What becomes of an operation: nothing is executed without an approval, and what one undisturbed request
    does to the row it decides (backend/tool_operations.py, backend/tool_executor.py). */
module ApprovalOutcomes {
  import opened PyText
  import opened Json
  import opened Validation
  import opened Tools
  import opened Approvals

  // ----- decisions need deciders ---------------------------------------------------------------

  ghost predicate Arrives(es: seq<Event>, op: OpId, approve: bool) {
    exists r :: Arrive(r, op, approve) in es
  }

  predicate Approving(p: Phase) {
    !p.RejectExpire? && !p.RejectDecide?
  }

  /** Until someone approves `op`, only rejecting requests deal with it and its executor has not run. */
  ghost predicate Unapproved(s: State, op: OpId) {
    && CallsFor(s.calls, op) == 0
    && (op in s.ops ==> s.ops[op].status in {Pending, Rejected, Expired})
    && (forall r :: r in s.requests && s.requests[r].op == op ==> !Approving(s.requests[r]))
  }

  /** Until someone rejects `op`, no request that deals with it is a rejecting one. */
  ghost predicate Unrejected(s: State, op: OpId) {
    && (op in s.ops ==> s.ops[op].status != Rejected)
    && (forall r :: r in s.requests && s.requests[r].op == op ==>
             Approving(s.requests[r]) && (s.requests[r].Decide? ==> s.requests[r].verdict.status != Rejected))
  }

  /** An expired row was found late. */
  ghost predicate LateIfExpired(o: Operation) {
    o.status == Expired ==> o.frozen.expiresAt.Some? && o.frozen.expiresAt.value < o.updatedAt
  }

  ghost predicate ExpiredLate(s: State) {
    && (forall op :: op in s.ops ==> LateIfExpired(s.ops[op]))
    && (forall r :: r in s.requests && s.requests[r].Decide? ==> s.requests[r].verdict.status != Expired)
  }

  lemma OthersStay(norm: Normaliser, s: State, r: RequestId, now: int, run: RunId, outcome: Outcome)
    requires r in s.requests
    ensures var t := Progress(norm, s, r, now, run, outcome);
            t.requests == if r in t.requests then s.requests[r := t.requests[r]] else s.requests - {r}
  {
    var p := s.requests[r];
    if p.Invoke? {
      InvokeShape(norm, s, r, p.op, p.frozen, p.run, outcome);
    }
  }

  lemma OperationStays(norm: Normaliser, s: State, r: RequestId, now: int, run: RunId, outcome: Outcome)
    requires r in s.requests
    ensures var t := Progress(norm, s, r, now, run, outcome);
            r in t.requests ==> t.requests[r].op == s.requests[r].op
  {
    var p := s.requests[r];
    if p.Invoke? {
      InvokeShape(norm, s, r, p.op, p.frozen, p.run, outcome);
    }
  }

  /** One transaction moves at most its own request, which stays with its operation. */
  lemma RequestsShape(norm: Normaliser, s: State, r: RequestId, now: int, run: RunId, outcome: Outcome)
    requires r in s.requests
    ensures var t := Progress(norm, s, r, now, run, outcome);
            && (forall q :: q in t.requests && q != r ==> q in s.requests && t.requests[q] == s.requests[q])
            && (r in t.requests ==> t.requests[r].op == s.requests[r].op)
  {
    OthersStay(norm, s, r, now, run, outcome);
    OperationStays(norm, s, r, now, run, outcome);
  }

  /** A request keeps to its own side, and decides on success or failure only. */
  lemma PhaseShape(norm: Normaliser, s: State, r: RequestId, now: int, run: RunId, outcome: Outcome)
    requires r in s.requests
    ensures var t := Progress(norm, s, r, now, run, outcome);
            r in t.requests ==>
              && (Approving(t.requests[r]) <==> Approving(s.requests[r]))
              && (t.requests[r].Decide? ==> t.requests[r].verdict.status in {Succeeded, Failed})
  {
    var p := s.requests[r];
    if p.Invoke? {
      InvokeShape(norm, s, r, p.op, p.frozen, p.run, outcome);
    }
  }

  /** What one transaction does to the rows: nothing, or one write to the row of its operation. */
  ghost predicate Writes(s: State, t: State, p: Phase, now: int) {
    || t.ops == s.ops
    || (p.op in s.ops && exists o :: t.ops == s.ops[p.op := o] && RowWritten(s, p, o, now))
  }

  ghost predicate RowWritten(s: State, p: Phase, o: Operation, now: int)
    requires p.op in s.ops
  {
    && o.frozen == s.ops[p.op].frozen && o.updatedAt == now
    && match p
       case ApproveExpire(op) => Stale(s.ops, op, now) && o.status == Expired
       case RejectExpire(op) => Stale(s.ops, op, now) && o.status == Expired
       case ApproveClaim(op) => s.ops[op].status == Pending && o.status == Executing
       case RejectDecide(op) => s.ops[op].status == Pending && o.status == Rejected
       case Decide(op, _, verdict) => s.ops[op].status == Executing && o.status == verdict.status
       case _ => false
  }

  lemma OpsShape(norm: Normaliser, s: State, r: RequestId, now: int, run: RunId, outcome: Outcome)
    requires r in s.requests
    ensures Writes(s, Progress(norm, s, r, now, run, outcome), s.requests[r], now)
  {
    var p := s.requests[r];
    var t := Progress(norm, s, r, now, run, outcome);
    if p.Invoke? {
      InvokeShape(norm, s, r, p.op, p.frozen, p.run, outcome);
    } else if t.ops != s.ops {
      assert t.ops == s.ops[p.op := t.ops[p.op]] && RowWritten(s, p, t.ops[p.op], now);
    }
  }

  lemma CallsShape(norm: Normaliser, s: State, r: RequestId, now: int, run: RunId, outcome: Outcome, op: OpId)
    requires r in s.requests && (s.requests[r].op != op || !Approving(s.requests[r]))
    ensures CallsFor(Progress(norm, s, r, now, run, outcome).calls, op) == CallsFor(s.calls, op)
  {
    var p := s.requests[r];
    if p.Invoke? {
      InvokeEntersExactly(norm, s, r, p.op, p.frozen, p.run, outcome, op);
    }
  }

  lemma UnapprovedProgress(norm: Normaliser, s: State, r: RequestId, now: int, run: RunId, outcome: Outcome, op: OpId)
    requires Unapproved(s, op) && r in s.requests
    ensures Unapproved(Progress(norm, s, r, now, run, outcome), op)
  {
    RequestsShape(norm, s, r, now, run, outcome);
    PhaseShape(norm, s, r, now, run, outcome);
    OpsShape(norm, s, r, now, run, outcome);
    CallsShape(norm, s, r, now, run, outcome, op);
  }

  lemma UnrejectedProgress(norm: Normaliser, s: State, r: RequestId, now: int, run: RunId, outcome: Outcome, op: OpId)
    requires Unrejected(s, op) && r in s.requests
    ensures Unrejected(Progress(norm, s, r, now, run, outcome), op)
  {
    RequestsShape(norm, s, r, now, run, outcome);
    PhaseShape(norm, s, r, now, run, outcome);
    OpsShape(norm, s, r, now, run, outcome);
  }

  lemma ExpiredLateProgress(norm: Normaliser, s: State, r: RequestId, now: int, run: RunId, outcome: Outcome)
    requires ExpiredLate(s) && r in s.requests
    ensures ExpiredLate(Progress(norm, s, r, now, run, outcome))
  {
    RequestsShape(norm, s, r, now, run, outcome);
    PhaseShape(norm, s, r, now, run, outcome);
    OpsShape(norm, s, r, now, run, outcome);
  }

  lemma UnapprovedStep(norm: Normaliser, s: State, e: Event, op: OpId)
    requires Unapproved(s, op) && Possible(s, e) && !(e.Arrive? && e.op == op && e.approve)
    ensures Unapproved(Next(norm, s, e), op)
  {
    if e.Advance? {
      UnapprovedProgress(norm, s, e.request, e.now, e.run, e.outcome, op);
    }
  }

  lemma UnrejectedStep(norm: Normaliser, s: State, e: Event, op: OpId)
    requires Unrejected(s, op) && Possible(s, e) && !(e.Arrive? && e.op == op && !e.approve)
    ensures Unrejected(Next(norm, s, e), op)
  {
    if e.Advance? {
      UnrejectedProgress(norm, s, e.request, e.now, e.run, e.outcome, op);
    }
  }

  lemma ExpiredLateStep(norm: Normaliser, s: State, e: Event)
    requires ExpiredLate(s) && Possible(s, e)
    ensures ExpiredLate(Next(norm, s, e))
  {
    if e.Advance? {
      ExpiredLateProgress(norm, s, e.request, e.now, e.run, e.outcome);
    }
  }

  lemma {:induction false} DecidersFollow(norm: Normaliser, s: State, es: seq<Event>, u: State, op: OpId)
    requires Reaches(norm, s, es, u)
    ensures Unapproved(s, op) && !Arrives(es, op, true) ==> Unapproved(u, op)
    ensures Unrejected(s, op) && !Arrives(es, op, false) ==> Unrejected(u, op)
    ensures ExpiredLate(s) ==> ExpiredLate(u)
    decreases |es|
  {
    if es != [] {
      var t := Next(norm, s, es[0]);
      assert forall approve, r :: Arrive(r, op, approve) in es[1..] ==> Arrive(r, op, approve) in es;
      assert es[0] in es;
      if Unapproved(s, op) && !Arrives(es, op, true) {
        UnapprovedStep(norm, s, es[0], op);
      }
      if Unrejected(s, op) && !Arrives(es, op, false) {
        UnrejectedStep(norm, s, es[0], op);
      }
      if ExpiredLate(s) {
        ExpiredLateStep(norm, s, es[0]);
      }
      DecidersFollow(norm, t, es[1..], u, op);
    }
  }

  /** On every run: an operation nobody approved was never executed and is pending, rejected or expired; a rejected
      one was rejected by someone; an expired one was found after its time. */
  lemma NothingWithoutApproval(norm: Normaliser, es: seq<Event>, s: State, op: OpId)
    requires Reaches(norm, INITIAL, es, s)
    ensures !Arrives(es, op, true) ==>
              CallsFor(s.calls, op) == 0 && (op in s.ops ==> s.ops[op].status in {Pending, Rejected, Expired})
    ensures op in s.ops && s.ops[op].status == Rejected ==> Arrives(es, op, false)
    ensures op in s.ops && s.ops[op].status == Expired ==>
              s.ops[op].frozen.expiresAt.Some? && s.ops[op].frozen.expiresAt.value < s.ops[op].updatedAt
  {
    DecidersFollow(norm, INITIAL, es, s, op);
  }

  // ----- one undisturbed request -----------------------------------------------------------------------

  /** What one transaction is given: the clock, an unused Run identifier and how the executor would end. */
  datatype Tick = Tick(now: int, run: RunId, outcome: Outcome)

  /** Request `r` runs its transactions one after the other, until it is done. */
  ghost function Alone(norm: Normaliser, s: State, r: RequestId, ticks: seq<Tick>): State
    decreases |ticks|
  {
    if ticks == [] || r !in s.requests then s
    else Alone(norm, Progress(norm, s, r, ticks[0].now, ticks[0].run, ticks[0].outcome), r, ticks[1..])
  }

  /** Everything about a state but the other requests. */
  ghost predicate Stands(u: State, r: RequestId, p: Phase, ops: Ops, runs: Runs, calls: seq<Call>, registry: Registry) {
    && r in u.requests && u.requests[r] == p
    && u.ops == ops && u.runs == runs && u.calls == calls && u.registry == registry
  }

  ghost predicate Done(u: State, r: RequestId, ops: Ops, runs: Runs, calls: seq<Call>, registry: Registry) {
    r !in u.requests && u.ops == ops && u.runs == runs && u.calls == calls && u.registry == registry
  }

  ghost function Tock(norm: Normaliser, s: State, r: RequestId, t: Tick): State
    requires r in s.requests
  {
    Progress(norm, s, r, t.now, t.run, t.outcome)
  }

  lemma AloneStep(norm: Normaliser, s: State, r: RequestId, ticks: seq<Tick>)
    requires r in s.requests && ticks != []
    ensures Alone(norm, s, r, ticks) == Alone(norm, Tock(norm, s, r, ticks[0]), r, ticks[1..])
  {
  }

  lemma AloneEnds(norm: Normaliser, s: State, r: RequestId, ticks: seq<Tick>)
    requires r !in s.requests
    ensures Alone(norm, s, r, ticks) == s
  {
  }

  /** The row after an undisturbed rejection at two clock readings. */
  function RejectedRow(o: Operation, first: int, second: int): Operation {
    if o.status != Pending then o
    else if o.frozen.expiresAt.Some? && o.frozen.expiresAt.value < first
      then Operation(o.frozen, Expired, first, o.decidedAt, o.resultRun, o.resultReference, o.error)
    else Operation(o.frozen, Rejected, second, Some(second), o.resultRun, o.resultReference, o.error)
  }

  /** An undisturbed rejection: an unknown or decided operation stays as it is, a late one expires, and any other
      pending one is rejected. Nothing is executed. */
  lemma RejectionSettles(norm: Normaliser, s: State, r: RequestId, op: OpId, ticks: seq<Tick>)
    requires |ticks| == 2 && r !in s.requests
    ensures Done(Alone(norm, Next(norm, s, Arrive(r, op, false)), r, ticks), r,
                 if op in s.ops then s.ops[op := RejectedRow(s.ops[op], ticks[0].now, ticks[1].now)] else s.ops,
                 s.runs, s.calls, s.registry)
  {
    var s1 := Next(norm, s, Arrive(r, op, false));
    AloneStep(norm, s1, r, ticks);
    var s2 := Tock(norm, s1, r, ticks[0]);
    if r in s2.requests {
      assert Stands(s2, r, RejectDecide(op), s.ops, s.runs, s.calls, s.registry);
      AloneStep(norm, s2, r, ticks[1..]);
      AloneEnds(norm, Tock(norm, s2, r, ticks[1]), r, ticks[1..][1..]);
    } else {
      AloneEnds(norm, s2, r, ticks[1..]);
    }
  }

  /** The claim: expiry check and claim of a pending operation that is not late. */
  lemma ClaimStage(norm: Normaliser, s: State, r: RequestId, op: OpId, ticks: seq<Tick>) returns (u: State)
    requires |ticks| >= 2 && r !in s.requests && op in s.ops && s.ops[op].status == Pending
    requires !Stale(s.ops, op, ticks[0].now)
    ensures Stands(u, r, Lookup(op, s.ops[op].frozen),
                   s.ops[op := s.ops[op].(status := Executing, updatedAt := ticks[1].now)], s.runs, s.calls, s.registry)
    ensures Alone(norm, Next(norm, s, Arrive(r, op, true)), r, ticks) == Alone(norm, u, r, ticks[2..])
  {
    var s1 := Next(norm, s, Arrive(r, op, true));
    AloneStep(norm, s1, r, ticks);
    var s2 := Tock(norm, s1, r, ticks[0]);
    AloneStep(norm, s2, r, ticks[1..]);
    assert ticks[1..][1..] == ticks[2..];
    u := Tock(norm, s2, r, ticks[1]);
  }

  /** An approval of an operation that is not pending, or late, executes nothing. */
  lemma VainApproval(norm: Normaliser, s: State, r: RequestId, op: OpId, ticks: seq<Tick>)
    requires |ticks| >= 2 && r !in s.requests
    requires op in s.ops && s.ops[op].status == Pending ==> Stale(s.ops, op, ticks[0].now)
    ensures var u := Alone(norm, Next(norm, s, Arrive(r, op, true)), r, ticks);
            && r !in u.requests && u.calls == s.calls && u.runs == s.runs && u.ops.Keys == s.ops.Keys
            && (forall k :: k in s.ops && k != op ==> u.ops[k] == s.ops[k])
            && (op in s.ops && s.ops[op].status != Pending ==> u.ops[op] == s.ops[op])
            && (op in s.ops && s.ops[op].status == Pending ==>
                  u.ops[op].status == Expired && u.ops[op].frozen == s.ops[op].frozen)
  {
    var s1 := Next(norm, s, Arrive(r, op, true));
    AloneStep(norm, s1, r, ticks);
    var s2 := Tock(norm, s1, r, ticks[0]);
    if r in s2.requests {
      AloneStep(norm, s2, r, ticks[1..]);
      AloneEnds(norm, Tock(norm, s2, r, ticks[1]), r, ticks[1..][1..]);
    } else {
      AloneEnds(norm, s2, r, ticks[1..]);
    }
  }

  /** What the boundaries refuse before or at the executor, and otherwise how the executor ends. */
  function Ending(norm: Normaliser, registry: Registry, frozen: Frozen, outcome: Outcome): Outcome {
    if frozen.tool !in registry then Raised(ToolNotFound)
    else if frozen.version != Some(registry[frozen.tool].version) then Raised(VersionMismatch)
    else if Validate(norm, registry[frozen.tool].schema, frozen.args).Err? then Raised(ValidationFailed)
    else if registry[frozen.tool].risk == HighRisk then Raised(PermissionDenied)
    else outcome
  }

  /** The executor call, if the boundaries admit it: the frozen tool and version on the validated frozen arguments. */
  function CallsMade(norm: Normaliser, registry: Registry, op: OpId, frozen: Frozen): seq<Call> {
    if !Admits(norm, registry, frozen) then []
    else
      var tool := registry[frozen.tool];
      [Call(op, frozen.tool, tool.version, tool.schema, Validate(norm, tool.schema, frozen.args).value)]
  }

  predicate Refuses(registry: Registry, frozen: Frozen) {
    frozen.tool !in registry || frozen.version != Some(registry[frozen.tool].version)
  }

  /** Unused, different Run identifiers, as uuid4 gives. */
  ghost predicate FreshRuns(runs: Runs, ticks: seq<Tick>) {
    forall i :: 0 <= i < |ticks| ==> ticks[i].run !in runs
  }

  /** The row a decision writes. */
  function Decided(o: Operation, ending: Outcome, run: RunId, now: int): Operation {
    match ending
    case Returned(reference) => Operation(o.frozen, Succeeded, now, Some(now), Some(run), reference, None)
    case Raised(why) => Operation(o.frozen, Failed, now, Some(now), None, None, Some(why))
  }

  /** Why the approval itself refuses. */
  function Refused(registry: Registry, frozen: Frozen): ErrorClass {
    if frozen.tool !in registry then ToolNotFound else VersionMismatch
  }

  /** The refused attempt is recorded as a Run that fails, and the operation fails. */
  lemma RefusalStage(norm: Normaliser, s: State, r: RequestId, op: OpId, o: Operation, ticks: seq<Tick>)
    requires |ticks| >= 4 && FreshRuns(s.runs, ticks) && op in s.ops && s.ops[op] == o && o.status == Executing
    requires Stands(s, r, Lookup(op, o.frozen), s.ops, s.runs, s.calls, s.registry) && Refuses(s.registry, o.frozen)
    ensures var version := if o.frozen.tool in s.registry then Some(s.registry[o.frozen.tool].version) else None;
            var why := Refused(s.registry, o.frozen);
            Done(Alone(norm, s, r, ticks), r, s.ops[op := Decided(o, Raised(why), "", ticks[3].now)],
                 s.runs[ticks[1].run := Run(o.frozen.tool, version, RunFailed, Some(why))], s.calls, s.registry)
  {
    var version := if o.frozen.tool in s.registry then Some(s.registry[o.frozen.tool].version) else None;
    var why := Refused(s.registry, o.frozen);
    AloneStep(norm, s, r, ticks);
    var s1 := Tock(norm, s, r, ticks[0]);
    assert Stands(s1, r, RefuseStart(op, o.frozen, why), s.ops, s.runs, s.calls, s.registry);
    AloneStep(norm, s1, r, ticks[1..]);
    var s2 := Tock(norm, s1, r, ticks[1]);
    assert ticks[1..][1..] == ticks[2..];
    RefusalRecorded(norm, s2, r, op, o, why, ticks[1].run, version, ticks[2..]);
  }

  lemma RefusalRecorded(norm: Normaliser, s: State, r: RequestId, op: OpId, o: Operation, why: ErrorClass, run: RunId,
                        version: Option<string>, ticks: seq<Tick>)
    requires |ticks| >= 2 && op in s.ops && s.ops[op] == o && o.status == Executing
    requires run in s.runs && s.runs[run] == Run(o.frozen.tool, version, RunStarted, None)
    requires Stands(s, r, RefuseFinish(op, o.frozen, why, run), s.ops, s.runs, s.calls, s.registry)
    ensures Done(Alone(norm, s, r, ticks), r, s.ops[op := Decided(o, Raised(why), "", ticks[1].now)],
                 s.runs[run := Run(o.frozen.tool, version, RunFailed, Some(why))], s.calls, s.registry)
  {
    AloneStep(norm, s, r, ticks);
    var s1 := Tock(norm, s, r, ticks[0]);
    assert Stands(s1, r, Decide(op, o.frozen, Failure(why)), s.ops,
                  s.runs[run := Run(o.frozen.tool, version, RunFailed, Some(why))], s.calls, s.registry);
    AloneStep(norm, s1, r, ticks[1..]);
    AloneEnds(norm, Tock(norm, s1, r, ticks[1]), r, ticks[1..][1..]);
  }

  /** Lookup and Run start of a call that is not refused. */
  lemma StartStage(norm: Normaliser, s: State, r: RequestId, op: OpId, frozen: Frozen, ticks: seq<Tick>)
    returns (u: State)
    requires |ticks| >= 2 && FreshRuns(s.runs, ticks) && !Refuses(s.registry, frozen)
    requires Stands(s, r, Lookup(op, frozen), s.ops, s.runs, s.calls, s.registry)
    ensures Stands(u, r, Invoke(op, frozen, ticks[1].run), s.ops,
                   s.runs[ticks[1].run := Run(frozen.tool, frozen.version, RunStarted, None)], s.calls, s.registry)
    ensures Alone(norm, s, r, ticks) == Alone(norm, u, r, ticks[2..])
  {
    AloneStep(norm, s, r, ticks);
    AloneStep(norm, Tock(norm, s, r, ticks[0]), r, ticks[1..]);
    assert ticks[1..][1..] == ticks[2..];
    u := Tock(norm, Tock(norm, s, r, ticks[0]), r, ticks[1]);
  }

  /** Where a request stands once it knows how the call ended. */
  function Settling(op: OpId, frozen: Frozen, run: RunId, ending: Outcome): Phase {
    match ending
    case Returned(reference) => SettleOk(op, frozen, run, reference)
    case Raised(why) => SettleErr(op, frozen, run, why)
  }

  lemma InvokeStage(norm: Normaliser, s: State, r: RequestId, op: OpId, frozen: Frozen, run: RunId, t: Tick)
    requires Stands(s, r, Invoke(op, frozen, run), s.ops, s.runs, s.calls, s.registry) && !Refuses(s.registry, frozen)
    ensures Stands(Tock(norm, s, r, t), r, Settling(op, frozen, run, Ending(norm, s.registry, frozen, t.outcome)),
                   s.ops, s.runs, s.calls + CallsMade(norm, s.registry, op, frozen), s.registry)
  {
    if !Admits(norm, s.registry, frozen) {
      assert s.calls + [] == s.calls;
    }
  }

  /** The Run row at the end of a call. */
  function RunAfter(frozen: Frozen, ending: Outcome): Run {
    match ending
    case Returned(_) => Run(frozen.tool, frozen.version, RunSucceeded, None)
    case Raised(why) => Run(frozen.tool, frozen.version, RunFailed, Some(why))
  }

  /** Run and verdict. */
  lemma SettleStage(norm: Normaliser, s: State, r: RequestId, op: OpId, o: Operation, run: RunId, ending: Outcome,
                    ticks: seq<Tick>)
    requires |ticks| >= 2 && op in s.ops && s.ops[op] == o && o.status == Executing
    requires run in s.runs && s.runs[run] == Run(o.frozen.tool, o.frozen.version, RunStarted, None)
    requires Stands(s, r, Settling(op, o.frozen, run, ending), s.ops, s.runs, s.calls, s.registry)
    ensures Done(Alone(norm, s, r, ticks), r, s.ops[op := Decided(o, ending, run, ticks[1].now)],
                 s.runs[run := RunAfter(o.frozen, ending)], s.calls, s.registry)
  {
    AloneStep(norm, s, r, ticks);
    var s1 := Tock(norm, s, r, ticks[0]);
    AloneStep(norm, s1, r, ticks[1..]);
    AloneEnds(norm, Tock(norm, s1, r, ticks[1]), r, ticks[1..][1..]);
  }

  /** Executor, Run and verdict. */
  lemma ExecuteStage(norm: Normaliser, s: State, r: RequestId, op: OpId, o: Operation, run: RunId, ticks: seq<Tick>)
    requires |ticks| >= 3 && op in s.ops && s.ops[op] == o && o.status == Executing && !Refuses(s.registry, o.frozen)
    requires run in s.runs && s.runs[run] == Run(o.frozen.tool, o.frozen.version, RunStarted, None)
    requires Stands(s, r, Invoke(op, o.frozen, run), s.ops, s.runs, s.calls, s.registry)
    ensures var ending := Ending(norm, s.registry, o.frozen, ticks[0].outcome);
            Done(Alone(norm, s, r, ticks), r, s.ops[op := Decided(o, ending, run, ticks[2].now)],
                 s.runs[run := RunAfter(o.frozen, ending)], s.calls + CallsMade(norm, s.registry, op, o.frozen),
                 s.registry)
  {
    AloneStep(norm, s, r, ticks);
    InvokeStage(norm, s, r, op, o.frozen, run, ticks[0]);
    SettleStage(norm, Tock(norm, s, r, ticks[0]), r, op, o, run,
                Ending(norm, s.registry, o.frozen, ticks[0].outcome), ticks[1..]);
  }

  /** The clock reading and Run identifier a decision uses. */
  function DecisionAt(refused: bool): nat {
    if refused then 5 else 6
  }

  lemma RefusedApproval(norm: Normaliser, s: State, r: RequestId, op: OpId, ticks: seq<Tick>)
    requires |ticks| == 7 && FreshRuns(s.runs, ticks) && r !in s.requests && op in s.ops
    requires s.ops[op].status == Pending && !Stale(s.ops, op, ticks[0].now) && Refuses(s.registry, s.ops[op].frozen)
    ensures var u := Alone(norm, Next(norm, s, Arrive(r, op, true)), r, ticks);
            var frozen, why := s.ops[op].frozen, Refused(s.registry, s.ops[op].frozen);
            && r !in u.requests && u.ops == s.ops[op := Decided(s.ops[op], Raised(why), "", ticks[5].now)]
            && u.calls == s.calls && ticks[3].run in u.runs && u.runs[ticks[3].run].tool == frozen.tool
            && u.runs[ticks[3].run].status == RunFailed && u.runs[ticks[3].run].error == Some(why)
  {
    var s2 := ClaimStage(norm, s, r, op, ticks);
    var rest := ticks[2..];
    assert rest[1] == ticks[3] && rest[3] == ticks[5];
    RefusalStage(norm, s2, r, op, s2.ops[op], rest);
  }

  lemma ExecutedApproval(norm: Normaliser, s: State, r: RequestId, op: OpId, ticks: seq<Tick>)
    requires |ticks| == 7 && FreshRuns(s.runs, ticks) && r !in s.requests && op in s.ops
    requires s.ops[op].status == Pending && !Stale(s.ops, op, ticks[0].now) && !Refuses(s.registry, s.ops[op].frozen)
    ensures var u := Alone(norm, Next(norm, s, Arrive(r, op, true)), r, ticks);
            var frozen := s.ops[op].frozen;
            var ending := Ending(norm, s.registry, frozen, ticks[4].outcome);
            && r !in u.requests && u.ops == s.ops[op := Decided(s.ops[op], ending, ticks[3].run, ticks[6].now)]
            && u.calls == s.calls + CallsMade(norm, s.registry, op, frozen)
            && ticks[3].run in u.runs && u.runs[ticks[3].run] == RunAfter(frozen, ending)
  {
    var s2 := ClaimStage(norm, s, r, op, ticks);
    var o := s2.ops[op];
    var rest := ticks[2..];
    assert rest[1] == ticks[3] && rest[2..] == ticks[4..];
    var s4 := StartStage(norm, s2, r, op, o.frozen, rest);
    ExecuteStage(norm, s4, r, op, o, ticks[3].run, ticks[4..]);
  }

  /** An undisturbed approval of a pending operation that is not late. A missing tool, another version, invalid
      arguments and high risk fail it without executing anything; otherwise the executor runs once, and its return
      makes the operation succeed with that Run and reference, its error fails it. */
  lemma ApprovalSettles(norm: Normaliser, s: State, r: RequestId, op: OpId, ticks: seq<Tick>)
    requires |ticks| == 7 && FreshRuns(s.runs, ticks) && r !in s.requests
    requires op in s.ops && s.ops[op].status == Pending && !Stale(s.ops, op, ticks[0].now)
    ensures var u := Alone(norm, Next(norm, s, Arrive(r, op, true)), r, ticks);
            var frozen := s.ops[op].frozen;
            var refused := Refuses(s.registry, frozen);
            var ending := Ending(norm, s.registry, frozen, ticks[4].outcome);
            && r !in u.requests
            && u.ops == s.ops[op := Decided(s.ops[op], ending, ticks[3].run, ticks[DecisionAt(refused)].now)]
            && u.calls == s.calls + (if refused then [] else CallsMade(norm, s.registry, op, frozen))
            && ticks[3].run in u.runs && u.runs[ticks[3].run].tool == frozen.tool
            && u.runs[ticks[3].run].status == (if ending.Returned? then RunSucceeded else RunFailed)
            && u.runs[ticks[3].run].error == (if ending.Returned? then None else Some(ending.why))
  {
    if Refuses(s.registry, s.ops[op].frozen) {
      RefusedApproval(norm, s, r, op, ticks);
    } else {
      ExecutedApproval(norm, s, r, op, ticks);
    }
  }

  // ----- the undisturbed request is a run of the system ------------------------------------------------------

  ghost predicate TicksOk(runs: Runs, ticks: seq<Tick>) {
    && FreshRuns(runs, ticks)
    && (forall i, j :: 0 <= i < j < |ticks| ==> ticks[i].run != ticks[j].run)
    && (forall i :: 0 <= i < |ticks| && ticks[i].outcome.Raised? ==>
             ticks[i].outcome.why in {ValidationFailed, PermissionDenied, ExecutionFailed})
  }

  lemma RunsGrowByOne(norm: Normaliser, s: State, r: RequestId, t: Tick)
    requires r in s.requests
    ensures Tock(norm, s, r, t).runs.Keys <= s.runs.Keys + {t.run}
  {
    var p := s.requests[r];
    if p.Invoke? {
      InvokeShape(norm, s, r, p.op, p.frozen, p.run, t.outcome);
    }
  }

  /** What `Alone` describes is reached by events. */
  lemma {:induction false} AloneIsReached(norm: Normaliser, s: State, es: seq<Event>, t: State, r: RequestId,
                                          ticks: seq<Tick>)
    returns (fs: seq<Event>)
    requires Reaches(norm, s, es, t) && TicksOk(t.runs, ticks)
    ensures Reaches(norm, s, fs, Alone(norm, t, r, ticks))
    decreases |ticks|
  {
    if ticks == [] || r !in t.requests {
      fs := es;
    } else {
      var e := Advance(r, ticks[0].now, ticks[0].run, ticks[0].outcome);
      ReachFurther(norm, s, es, t, e);
      RunsGrowByOne(norm, t, r, ticks[0]);
      AloneStep(norm, t, r, ticks);
      fs := AloneIsReached(norm, s, es + [e], Tock(norm, t, r, ticks[0]), r, ticks[1..]);
    }
  }

  /** An operation approved in time, whose tool is registered at its frozen version and admits its arguments, is
      executed once and succeeds with the reference the executor returns. */
  lemma ApprovalCanSucceed(norm: Normaliser, es: seq<Event>, s: State, r: RequestId, op: OpId, ticks: seq<Tick>)
    returns (fs: seq<Event>, u: State)
    requires Reaches(norm, INITIAL, es, s) && |ticks| == 7 && TicksOk(s.runs, ticks) && r !in s.requests
    requires op in s.ops && s.ops[op].status == Pending && !Stale(s.ops, op, ticks[0].now)
    requires !Refuses(s.registry, s.ops[op].frozen) && Admits(norm, s.registry, s.ops[op].frozen)
    requires ticks[4].outcome.Returned?
    ensures Reaches(norm, INITIAL, fs, u) && op in u.ops && u.ops[op].status == Succeeded
    ensures u.ops[op].resultReference == ticks[4].outcome.reference && u.ops[op].frozen == s.ops[op].frozen
    ensures CallsFor(u.calls, op) == 1 && |u.calls| == |s.calls| + 1
  {
    var e := Arrive(r, op, true);
    ReachFurther(norm, INITIAL, es, s, e);
    ApprovalSettles(norm, s, r, op, ticks);
    fs := AloneIsReached(norm, INITIAL, es + [e], Next(norm, s, e), r, ticks);
    u := Alone(norm, Next(norm, s, e), r, ticks);
    AtMostOnce(norm, fs, u, op);
  }

  /** A pending operation that is not late can be rejected from every reachable state, and nothing is executed. */
  lemma RejectionCanLand(norm: Normaliser, es: seq<Event>, s: State, r: RequestId, op: OpId, ticks: seq<Tick>)
    returns (fs: seq<Event>, u: State)
    requires Reaches(norm, INITIAL, es, s) && |ticks| == 2 && TicksOk(s.runs, ticks) && r !in s.requests
    requires op in s.ops && s.ops[op].status == Pending && !Stale(s.ops, op, ticks[0].now)
    ensures Reaches(norm, INITIAL, fs, u) && op in u.ops && u.ops[op].status == Rejected
    ensures u.ops[op].frozen == s.ops[op].frozen && u.calls == s.calls && u.runs == s.runs
  {
    var e := Arrive(r, op, false);
    ReachFurther(norm, INITIAL, es, s, e);
    RejectionSettles(norm, s, r, op, ticks);
    fs := AloneIsReached(norm, INITIAL, es + [e], Next(norm, s, e), r, ticks);
    u := Alone(norm, Next(norm, s, e), r, ticks);
  }

  // ----- storage faults ---------------------------------------------------------------------------------------

  /** A storage fault around the executor fails the operation as a storage failure at the next transaction. */
  lemma FaultInsideSettles(norm: Normaliser, s: State, r: RequestId, t: Tick)
    requires Inv(norm, s) && r in s.requests
    requires s.requests[r].StartRun? || s.requests[r].SettleOk? || s.requests[r].SettleErr?
    ensures var op := s.requests[r].op;
            && op in s.ops
            && Done(Alone(norm, Next(norm, s, Fault(r)), r, [t]), r,
                    s.ops[op := Decided(s.ops[op], Raised(StorageFailed), "", t.now)], s.runs, s.calls, s.registry)
  {
    var p := s.requests[r];
    assert PhaseOk(s, p);
    var s1 := Next(norm, s, Fault(r));
    assert Stands(s1, r, Decide(p.op, p.frozen, Failure(StorageFailed)), s.ops, s.runs, s.calls, s.registry);
    AloneStep(norm, s1, r, [t]);
    AloneEnds(norm, Tock(norm, s1, r, t), r, [t][1..]);
  }

  /** Anywhere else it ends the request, and every row stays. */
  lemma FaultOutsideLeaves(norm: Normaliser, s: State, r: RequestId)
    requires r in s.requests
    requires !s.requests[r].StartRun? && !s.requests[r].SettleOk? && !s.requests[r].SettleErr?
    ensures Done(Next(norm, s, Fault(r)), r, s.ops, s.runs, s.calls, s.registry)
  {
  }
}
