/** Turning observed container outcomes into sealed check results and receipts
    (backend/continuous_builder/check_runtime.py, backend/continuous_builder/check_runner.py). */
module CheckRunner {
  import opened PyText
  import opened Json

  datatype Code =
    | TreeDigestMismatch | NonzeroExit | Timeout | OutputBoundExceeded | ExecutionUncertain | CleanupUncertain
    | PlanBindingMismatch | CandidateInputInvalid | StructuralRequired | UnsupportedCheck | InvalidPlan
    | ContainmentUnproven

  datatype Check = Check(id: string, argv: seq<string>, maxStdout: int, maxStderr: int)

  /** What the check definition's own constructor guarantees about the capture limits. */
  predicate CheckOk(c: Check) {
    1 <= c.maxStdout <= 65536 && 1 <= c.maxStderr <= 65536
  }

  datatype Plan = Plan(checks: seq<Check>)

  predicate PlanOk(p: Plan) {
    p.checks != [] && forall i :: 0 <= i < |p.checks| ==> CheckOk(p.checks[i])
  }

  // ----- draining the pipes -----------------------------------------------------------

  /** One thing the drain loop meets: the deadline, an operating-system fault, or bytes on a pipe. */
  datatype Event = Expired | Fault | Read(err: bool, available: nat)

  /** How the attached process ended: its exit status, or no status in time. */
  datatype Waited = Status(code: int) | NoStatus

  datatype Output = Output(stdout: nat, stderr: nat, complete: bool, timedOut: bool)

  const CHUNK := 8192

  function Min(a: int, b: int): int {
    if a < b then a else b
  }

  /** Bytes a pipe has offered in chunks. */
  function Offered(events: seq<Event>, err: bool): nat {
    if events == [] then 0
    else
      var last := events[|events| - 1];
      Offered(events[..|events| - 1], err) + (if last.Read? && last.err == err then Min(last.available, CHUNK) else 0)
  }

  predicate OnlyReads(events: seq<Event>) {
    forall i :: 0 <= i < |events| ==> events[i].Read?
  }

  /** The process ran to an ordinary exit in time and neither pipe offered more than its limit. */
  predicate Quiet(c: Check, events: seq<Event>, waited: Waited) {
    && OnlyReads(events) && Offered(events, false) <= c.maxStdout && Offered(events, true) <= c.maxStderr
    && waited.Status? && 0 <= waited.code <= 5
  }

  lemma {:induction false} OfferedGrows(events: seq<Event>, k: nat, err: bool)
    requires k <= |events|
    ensures Offered(events[..k], err) <= Offered(events, err)
  {
    if k == |events| {
      assert events[..k] == events;
    } else {
      OfferedGrows(events[..|events| - 1], k, err);
      assert events[..|events| - 1][..k] == events[..k];
    }
  }

  /** Reads until the pipes close, the deadline passes, a limit is crossed or something breaks. Never
      captures more than one byte past a limit, and is clean exactly when the run was quiet. */
  method Collect(c: Check, events: seq<Event>, waited: Waited, killFails: bool) returns (out: Output, codes: set<Code>)
    requires CheckOk(c)
    ensures out.stdout <= c.maxStdout + 1 && out.stderr <= c.maxStderr + 1
    ensures out.complete == (codes == {}) && out.timedOut == (Timeout in codes)
    ensures codes <= {Timeout, OutputBoundExceeded, ExecutionUncertain}
    ensures codes == {} <==> Quiet(c, events, waited)
    ensures codes == {} ==> out.stdout == Offered(events, false) && out.stderr == Offered(events, true)
    ensures OutputBoundExceeded in codes ==> out.stdout == c.maxStdout + 1 || out.stderr == c.maxStderr + 1
    ensures Timeout in codes ==> Expired in events
  {
    var sizes := [0, 0];
    var limits := [c.maxStdout, c.maxStderr];
    codes := {};
    var k := 0;
    while k < |events| && codes == {}
      invariant 0 <= k <= |events| && |sizes| == 2
      invariant codes == {} ==>
                  OnlyReads(events[..k]) && sizes[0] == Offered(events[..k], false) && sizes[1] == Offered(events[..k],
                                                                                                           true)
      invariant codes == {} ==> sizes[0] <= limits[0] && sizes[1] <= limits[1]
      invariant 0 <= sizes[0] <= limits[0] + 1 && 0 <= sizes[1] <= limits[1] + 1
      invariant codes <= {Timeout, OutputBoundExceeded, ExecutionUncertain}
      invariant codes != {} ==> !Quiet(c, events, waited)
      invariant OutputBoundExceeded in codes ==> sizes[0] == limits[0] + 1 || sizes[1] == limits[1] + 1
      invariant Timeout in codes ==> Expired in events
      decreases |events| - k
    {
      assert events[..k + 1][..k] == events[..k];
      OfferedGrows(events, k + 1, false);
      OfferedGrows(events, k + 1, true);
      match events[k] {
        case Expired => codes := {Timeout};
        case Fault => codes := {ExecutionUncertain};
        case Read(err, available) =>
          var index := if err then 1 else 0;
          var chunk := Min(available, Min(CHUNK, limits[index] + 1 - sizes[index]));
          sizes := sizes[index := sizes[index] + chunk];
          if sizes[index] > limits[index] {
            codes := {OutputBoundExceeded};
          }
      }
      k := k + 1;
    }
    if codes == {} {
      assert events[..k] == events;
      if waited.NoStatus? || !(0 <= waited.code <= 5) {
        codes := {ExecutionUncertain};
      }
    }
    if codes != {} && killFails {
      codes := codes + {ExecutionUncertain};
    }
    out := Output(sizes[0], sizes[1], codes == {}, Timeout in codes);
  }

  // ----- one check -----------------------------------------------------------------------------

  /** An observation that may itself fail, with the code its error carries. */
  datatype Attempt<+T> = Got(value: T) | Broke(code: Code)

  /** A look at the container: whether it still runs, and whether it is in a stopped state. */
  datatype Probe = NoAnswer | Probe(running: bool, settled: bool)

  datatype Final = Final(started: bool, running: bool, exited: bool, exitCode: Value, troubled: bool)

  datatype Inspection = Inspection(sameId: bool, contained: bool)

  /** Everything the host observed while running one check. */
  datatype Observation = Observation(
    inTime: bool, created: Attempt<bool>, inspected: Attempt<Inspection>, tree: Attempt<bool>, stillInTime: bool,
    events: seq<Event>, waited: Waited, killFails: bool, final: Attempt<Final>,
    afterStop: Probe, afterKill: Probe, removed: Attempt<bool>)

  predicate Settled(p: Probe) {
    p.Probe? && !p.running && p.settled
  }

  function Stop(o: Observation): bool {
    Settled(o.afterStop) || Settled(o.afterKill)
  }

  /** Removal counts only for a container whose identity was verified at creation. */
  function CleanedUp(o: Observation, verified: bool): bool {
    verified && o.removed == Got(true)
  }

  datatype CheckResult = CheckResult(
    verified: bool, performed: bool, exitCode: Value, stdout: nat, stderr: nat,
    complete: bool, timedOut: bool, terminated: bool, cleaned: bool, codes: set<Code>)

  /** Equality with the expected exit code 0; a false flag and a zero number compare equal to it too. */
  predicate EqualsZero(v: Value) {
    v == Int(0) || v == Bool(false) || v == Num(0.0)
  }

  predicate Contained(o: Observation) {
    o.inTime && o.created == Got(true) && o.inspected == Got(Inspection(true,
                                                                        true)) && o.tree == Got(true) && o.stillInTime
  }

  /** The first thing in the way of a contained run. */
  function Obstacle(o: Observation): Code
    requires !Contained(o)
  {
    if !o.inTime then Timeout
    else if o.created.Broke? then o.created.code
    else if !o.created.value then ExecutionUncertain
    else if o.inspected.Broke? then o.inspected.code
    else if o.inspected != Got(Inspection(true, true)) then ContainmentUnproven
    else if o.tree.Broke? then o.tree.code
    else if !o.tree.value then TreeDigestMismatch
    else Timeout
  }

  predicate Exited(f: Attempt<Final>) {
    f.Got? && !f.value.running && f.value.exited
  }

  predicate Finished(f: Attempt<Final>) {
    Exited(f) && f.value.started && EqualsZero(f.value.exitCode) && !f.value.troubled
  }

  /** Nothing whatever went wrong. */
  predicate Clean(c: Check, o: Observation) {
    Contained(o) && Quiet(c, o.events, o.waited) && Finished(o.final) && o.removed == Got(true)
  }

  /** A reason for incomplete output. */
  predicate ExplainsLoss(codes: set<Code>) {
    OutputBoundExceeded in codes || ExecutionUncertain in codes || Timeout in codes
  }

  /** The consistency a sealed result insists on, apart from the exit code's type. */
  predicate Consistent(r: CheckResult) {
    && r.stdout <= 65537 && r.stderr <= 65537
    && (r.codes == {} ==>
             r.performed && EqualsZero(r.exitCode) && r.complete && !r.timedOut && r.terminated && r.cleaned)
    && (r.timedOut ==> Timeout in r.codes)
    && (r.cleaned || CleanupUncertain in r.codes)
    && (r.terminated || ExecutionUncertain in r.codes)
    && (r.complete || ExplainsLoss(r.codes))
  }

  predicate ExitCodeTyped(r: CheckResult) {
    r.exitCode.Null? || r.exitCode.Int?
  }

  /** The constructor of a sealed result. */
  predicate ResultAccepted(r: CheckResult) {
    Consistent(r) && ExitCodeTyped(r)
  }

  const UNRUN := CheckResult(false, false, Null, 0, 0, false, false, false, false, {})

  /** The part that may raise: verify containment, drain the output, read the final state. */
  method Attempted(c: Check, o: Observation) returns (r: CheckResult)
    requires CheckOk(c)
    ensures r.stdout <= c.maxStdout + 1 && r.stderr <= c.maxStderr + 1
    ensures r.codes == {} <==> Contained(o) && Quiet(c, o.events, o.waited) && Finished(o.final)
    ensures r.codes == {} ==>
              r.verified && r.performed && r.exitCode == o.final.value.exitCode && r.complete && r.terminated
    ensures !o.inTime ==> Timeout in r.codes && NonzeroExit !in r.codes
    ensures Contained(o) && o.final.Got? ==>
              (NonzeroExit in r.codes <==> !EqualsZero(o.final.value.exitCode)) && r.performed == o.final.value.started
    ensures r.terminated <==> Contained(o) && Exited(o.final)
    ensures r.verified <==> o.inTime && o.created == Got(true)
    ensures !Contained(o) ==> r.codes == {Obstacle(o)} && !r.performed && !r.complete && r.stdout == 0 && r.stderr == 0
    ensures Contained(o) && o.final.Broke? ==> o.final.code in r.codes
  {
    r := UNRUN;
    if !o.inTime {
      return r.(codes := {Timeout});
    }
    if o.created.Broke? {
      return r.(codes := {o.created.code});
    }
    if !o.created.value {
      return r.(codes := {ExecutionUncertain});
    }
    r := r.(verified := true);
    if o.inspected.Broke? {
      return r.(codes := {o.inspected.code});
    }
    if !o.inspected.value.sameId || !o.inspected.value.contained {
      return r.(codes := {ContainmentUnproven});
    }
    if o.tree.Broke? {
      return r.(codes := {o.tree.code});
    }
    if !o.tree.value {
      return r.(codes := {TreeDigestMismatch});
    }
    if !o.stillInTime {
      return r.(codes := {Timeout});
    }
    var out, codes := Collect(c, o.events, o.waited, o.killFails);
    r := r.(stdout := out.stdout, stderr := out.stderr, complete := out.complete, timedOut := out.timedOut,
            codes := codes);
    match o.final
    case Broke(code) => r := r.(codes := codes + {code});
    case Got(f) =>
      var terminated := !f.running && f.exited;
      var uncertain := !f.started || !terminated || f.troubled;
      r := r.(performed := f.started, terminated := terminated, exitCode := f.exitCode,
              codes := codes + (if uncertain then {ExecutionUncertain} else {})
                       + (if EqualsZero(f.exitCode) then {} else {NonzeroExit}));
  }

  /** The clean-up that always runs: stop, remove, and name every doubt. */
  method Settle(was: CheckResult, stopped: bool, removed: bool) returns (r: CheckResult)
    requires was.stdout <= 65537 && was.stderr <= 65537
    requires was.codes == {} ==> was.performed && EqualsZero(was.exitCode) && was.complete && was.terminated
    ensures Consistent(r) && (r.codes == {} <==> was.codes == {} && removed)
    ensures r.terminated == (was.terminated || stopped) && r.cleaned == removed
    ensures was.codes <= r.codes <= was.codes + {ExecutionUncertain, CleanupUncertain}
    ensures r == was.(terminated := r.terminated, cleaned := r.cleaned, timedOut := r.timedOut, codes := r.codes)
  {
    r := was;
    if !r.terminated {
      r := r.(terminated := stopped);
    }
    var codes := r.codes;
    if !r.terminated {
      codes := codes + {ExecutionUncertain};
    }
    if !removed {
      codes := codes + {CleanupUncertain};
    }
    if !r.complete && !ExplainsLoss(codes) {
      codes := codes + {ExecutionUncertain};
    }
    r := r.(cleaned := removed, timedOut := Timeout in codes, codes := codes);
  }

  /** Whatever was observed, the result is consistent; it carries no code exactly when nothing went wrong. */
  method ExecuteOne(c: Check, o: Observation) returns (r: CheckResult)
    requires CheckOk(c)
    ensures Consistent(r) && r.stdout <= c.maxStdout + 1 && r.stderr <= c.maxStderr + 1
    ensures r.codes == {} <==> Clean(c, o)
    ensures r.codes == {} ==> r.exitCode == o.final.value.exitCode
    ensures !o.inTime ==> Timeout in r.codes && NonzeroExit !in r.codes
    ensures Contained(o) && o.final.Got? ==>
              (NonzeroExit in r.codes <==> !EqualsZero(o.final.value.exitCode)) && r.performed == o.final.value.started
    ensures r.terminated <==> Stop(o) || (Contained(o) && Exited(o.final))
    ensures r.cleaned <==> o.inTime && o.created == Got(true) && o.removed == Got(true)
    ensures !Contained(o) ==> Obstacle(o) in r.codes && !r.performed && r.stdout == 0 && r.stderr == 0
    ensures Contained(o) && o.final.Broke? ==> o.final.code in r.codes
  {
    var was := Attempted(c, o);
    r := Settle(was, Stop(o), CleanedUp(o, was.verified));
  }

  // ----- the receipt -----------------------------------------------------------------------------

  datatype Verdict = Passed | Failed | TimedOut | Uncertain

  function StatusOf(codes: set<Code>): Verdict {
    if codes * {ExecutionUncertain, CleanupUncertain, ContainmentUnproven} != {} then Uncertain
    else if Timeout in codes then TimedOut
    else if codes == {} then Passed else Failed
  }

  /** What a verdict means: a pass has no code at all; any doubt about execution, clean-up or containment makes it
      uncertain; a timeout is reported as one only without such doubt, and so is a plain failure. */
  lemma StatusMeans(codes: set<Code>)
    ensures StatusOf(codes) == Passed <==> codes == {}
    ensures StatusOf(codes) == Uncertain <==>
              ExecutionUncertain in codes || CleanupUncertain in codes || ContainmentUnproven in codes
    ensures StatusOf(codes) == TimedOut <==> Timeout in codes && StatusOf(codes) != Uncertain
    ensures StatusOf(codes) == Failed ==> codes != {} && Timeout !in codes
  {
    var doubts := {ExecutionUncertain, CleanupUncertain, ContainmentUnproven};
    forall c | c in doubts && c in codes
      ensures codes * doubts != {}
    {
      assert c in codes * doubts;
    }
    if codes * doubts != {} {
      var c :| c in codes * doubts;
    }
  }

  /** A result sealed for its place in the plan. */
  datatype Sealed = Sealed(check: string, argv: seq<string>, start: int, finish: int, result: CheckResult)

  datatype Receipt = Receipt(results: seq<Sealed>, status: Verdict, codes: set<Code>, cleanup: bool)

  predicate SealedAccepted(s: Sealed) {
    s.start >= 0 && s.finish == s.start + 1 && ResultAccepted(s.result)
  }

  predicate InPlace(p: Plan, r: Sealed, i: nat)
    requires i < |p.checks|
  {
    SealedAccepted(r) && r.check == p.checks[i].id && r.argv == p.checks[i].argv && r.start == 2 * i
  }

  /** The receipt's constructor. */
  predicate ReceiptAccepted(p: Plan, r: Receipt) {
    && |r.results| <= |p.checks|
    && (forall i :: 0 <= i < |r.results| ==> InPlace(p, r.results[i], i) && r.results[i].result.codes <= r.codes)
    && r.status == StatusOf(r.codes)
    && (r.cleanup || CleanupUncertain in r.codes)
    && (r.status == Passed ==> |r.results| == |p.checks| && r.cleanup)
  }

  /** Only the last result may carry a failure. */
  predicate OnlyLastFails(results: seq<Sealed>) {
    forall i :: 0 <= i < |results| - 1 ==> results[i].result.codes == {}
  }

  /** Everything observed around and during a run of the plan. */
  datatype Session = Session(
    materialized: Option<Code>, transport: Option<Code>, check: nat -> Observation,
    tree: Attempt<bool>, workspaceRemoved: bool)

  /** The check ran clean and reported its exit code as an integer. */
  predicate Sound(c: Check, o: Observation) {
    Clean(c, o) && o.final.value.exitCode == Int(0)
  }

  ghost predicate AllSound(p: Plan, s: Session) {
    forall i :: 0 <= i < |p.checks| ==> Sound(p.checks[i], s.check(i))
  }

  /** Runs the checks in plan order and stops after the first that fails or cannot be sealed. */
  method RunChecks(p: Plan, s: Session) returns (results: seq<Sealed>, codes: set<Code>, raised: bool)
    requires PlanOk(p)
    ensures raised ==> codes == {InvalidPlan}
    ensures |results| <= |p.checks| && OnlyLastFails(results)
    ensures forall i :: 0 <= i < |results| ==> InPlace(p, results[i], i) && results[i].result.codes <= codes
    ensures forall i :: 0 <= i < |results| ==> CaptureBounded(p.checks[i], results[i].result)
    ensures codes == {} <==> AllSound(p, s)
    ensures codes == {} ==> |results| == |p.checks|
    ensures forall i :: 0 <= i < |results| ==> (results[i].result.cleaned || CleanupUncertain in codes)
  {
    results, codes, raised := [], {}, false;
    for k := 0 to |p.checks|
      invariant codes == {} && |results| == k
      invariant forall i :: 0 <= i < k ==> InPlace(p, results[i], i) && CaptureBounded(p.checks[i], results[i].result)
      invariant forall i :: 0 <= i < k ==> results[i].result.codes == {} && Sound(p.checks[i], s.check(i))
    {
      assert CheckOk(p.checks[k]);
      var r := ExecuteOne(p.checks[k], s.check(k));
      if !ExitCodeTyped(r) {
        return results, {InvalidPlan}, true;
      }
      results := results + [Sealed(p.checks[k].id, p.checks[k].argv, 2 * k, 2 * k + 1, r)];
      if r.codes != {} {
        return results, r.codes, false;
      }
    }
  }

  predicate CaptureBounded(c: Check, r: CheckResult) {
    r.stdout <= c.maxStdout + 1 && r.stderr <= c.maxStderr + 1
  }

  method AllCleaned(results: seq<Sealed>) returns (ok: bool)
    ensures ok <==> forall i :: 0 <= i < |results| ==> results[i].result.cleaned
  {
    for k := 0 to |results|
      invariant forall i :: 0 <= i < k ==> results[i].result.cleaned
    {
      if !results[k].result.cleaned {
        return false;
      }
    }
    ok := true;
  }

  /** The receipt always satisfies its own constructor, and reports a pass exactly when every planned
      check was sound, the tree was unchanged and the workspace was removed. */
  method RunTrustedChecks(p: Plan, s: Session) returns (r: Receipt)
    requires PlanOk(p)
    ensures ReceiptAccepted(p, r) && OnlyLastFails(r.results)
    ensures forall i :: 0 <= i < |r.results| ==> CaptureBounded(p.checks[i], r.results[i].result)
    ensures r.status == Passed <==>
              s.materialized.None? && s.transport.None? && AllSound(p, s) && s.tree == Got(true) && s.workspaceRemoved
  {
    var results: seq<Sealed> := [];
    var codes: set<Code> := {};
    if s.materialized.Some? {
      codes := {s.materialized.value};
    } else if s.transport.Some? {
      codes := {s.transport.value};
    } else {
      var raised;
      results, codes, raised := RunChecks(p, s);
      if !raised && s.tree != Got(true) {
        codes := codes + {if s.tree.Broke? then s.tree.code else TreeDigestMismatch};
      }
    }
    if !s.workspaceRemoved {
      codes := codes + {CleanupUncertain};
    }
    if |results| != |p.checks| && codes == {} {
      codes := {ExecutionUncertain};
    }
    var cleaned := AllCleaned(results);
    r := Receipt(results, StatusOf(codes), codes, s.workspaceRemoved && cleaned);
  }
}
