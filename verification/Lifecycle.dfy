/** The guard's lifecycle as a state machine: what it sends, what it remembers and what it raises
    at each step, for every reply it may get. Both guard classes are proved against these steps,
    and the protocol model interleaves them. */
module Lifecycle {
  import opened Basics
  import opened Mandates
  import opened Amounts
  import opened Payloads

  // ---- what comes back from the client library ----

  /** A response object. Nothing is assumed about how the flags combine; the guard tests them in order. */
  datatype Response = Response(
    isSuccess: bool,
    isTransportError: bool,
    isServerError: bool,
    status: int,
    code: Option<string>,
    requestId: Option<string>)

  /** What one commit or release call comes to. Cancellation reaches only the async guard. */
  datatype Reply = Responded(response: Response) | RaisedError(errorType: string) | Cancelled

  type SyncReply = r: Reply | !r.Cancelled? witness RaisedError("")

  datatype Decision = Allow | AllowWithCaps | Deny

  /** The policy details of a decision. The guard only passes them on to whoever asked for a dry run. */
  datatype Details = Details(caps: PyValue, balances: PyValue, affectedScopes: Option<seq<string>>)

  const NO_DETAILS := Details(PyNone, PyNone, None)

  /** What one reserve call comes to: a well-formed decision, a non-success response, a success body
      that does not validate, an exception, or a cancellation. */
  datatype ReserveReply =
    | Decided(decision: Decision, reservationId: Option<string>, reasonCode: Option<string>, details: Details)
    | Refused(error: Option<string>, requestId: Option<string>)
    | Malformed
    | ReserveRaised(errorType: string)
    | ReserveCancelled

  type SyncReserveReply = r: ReserveReply | !r.ReserveCancelled? witness Malformed

  // ---- what the guard sends, keeps and raises ----

  datatype Call =
    | Reserve(reserve: ReserveBody)
    | Commit(id: string, commit: CommitBody)
    | Release(id: string, release: ReleaseBody)

  datatype Receipt = Receipt(
    decision: Decision,
    reservationId: string,
    tenant: Option<string>,
    agent: Option<string>,
    transactionId: string,
    checkoutHash: Option<string>,
    actionKind: string,
    host: string,
    currency: string,
    unit: string,
    amountMicros: int,
    committed: bool,
    pspRef: Option<string>,
    extra: Option<map<string, PyValue>>)

  /** The fields a guard updates. */
  datatype GuardState = GuardState(
    reservationId: Option<string>,
    decision: Option<Decision>,
    actual: Option<int>,
    metadata: map<string, PyValue>,
    receipt: Option<Receipt>,
    committed: bool,
    aborted: Option<string>)

  const FRESH := GuardState(None, None, None, map[], None, false, None)

  /** How `__enter__` ends. */
  datatype Entry =
    | Entered
    | MandateRejected(fault: Fault)
    | Denied(reasonCode: Option<string>, requestId: Option<string>)
    | DryRunResult(decision: Decision, reasonCode: Option<string>, details: Details)
    | EnterEscaped(errorType: string)
    | EnterCancelled

  /** Why a release could not be confirmed. */
  datatype ReleaseError = ReleaseRaised(errorType: string) | ReleaseStatus(status: int, code: Option<string>)

  /** How the `with` statement ends once the body has run. */
  datatype Exit =
    | Clean
    | BodyErrorPropagates(errorType: string)
    | CommitUncertain(code: Option<string>, requestId: Option<string>, reservationId: string)
    | CommitFailed(code: Option<string>, requestId: Option<string>, reservationId: string,
                   released: bool, releaseError: Option<ReleaseError>)
    | BuildFailed(fault: Fault)
    | ExitCancelled

  // ---- enter ----

  const VALIDATION_ERROR := "ValidationError"

  function AfterReserve(c: Config, st: GuardState, reply: ReserveReply): (GuardState, Entry) {
    match reply
    case ReserveRaised(name) => (st, EnterEscaped(name))
    case ReserveCancelled => (st, EnterCancelled)
    case Refused(error, requestId) => (st, Denied(error, requestId))
    case Malformed => (st, EnterEscaped(VALIDATION_ERROR))
    case Decided(decision, id, reason, details) =>
      var st' := st.(decision := Some(decision));
      if decision.Deny? then (st', Denied(reason, None))
      else if c.dryRun then (st', DryRunResult(decision, reason, details))
      else if id.None? then (st', Denied(reason, None))
      else (st'.(reservationId := id), Entered)
  }

  // ---- body ----

  /** What the caller may do to the guard inside the `with` block. */
  datatype Op = SetActual(amount: PyValue) | Attach(fields: map<string, PyValue>) | Abort(reason: string)

  datatype BodyEnd = Returned | RaisedInBody(errorType: string)

  function ApplyOp(st: GuardState, op: Op): GuardState {
    match op
    case SetActual(amount) =>
      var checked := ValidateMicros(amount);
      if checked.Ok? then st.(actual := Some(checked.value)) else st
    case Attach(fields) => st.(metadata := st.metadata + fields)
    case Abort(reason) => st.(aborted := Some(Take(reason, 256)))
  }

  function ApplyOps(st: GuardState, ops: seq<Op>): GuardState {
    if |ops| == 0 then st else ApplyOp(ApplyOps(st, ops[..|ops| - 1]), ops[|ops| - 1])
  }

  // ---- exit ----

  /** What a release is for; it decides what is raised afterwards. */
  datatype Cause =
    | BodyFailed(errorType: string)
    | Aborted
    | CommitRejected(code: Option<string>, requestId: Option<string>)

  /** The first move of `__exit__`. */
  datatype ExitPlan =
    | NothingToDo
    | SendCommit(id: string, commit: CommitBody)
    | SendRelease(id: string, release: ReleaseBody, cause: Cause)
    | CannotBuild(fault: Fault)

  function PlanExit(p: Platform, c: Config, st: GuardState, end: BodyEnd): ExitPlan {
    if st.reservationId.None? then NothingToDo
    else
      var id := st.reservationId.value;
      match end
      case RaisedInBody(name) =>
        SendRelease(id, ReleaseBodyOf(p, c.mandate, "ap2_guard_failed:" + name, Some(name)), BodyFailed(name))
      case Returned =>
        if st.aborted.Some? then
          SendRelease(id, ReleaseBodyOf(p, c.mandate, "ap2_guard_aborted:" + st.aborted.value, Some("Aborted")), Aborted)
        else match CommitBodyOf(p, c.mandate, st.actual, NonEmpty(st.metadata))
          case Err(fault) => CannotBuild(fault)
          case Ok(body) => SendCommit(id, body)
  }

  /** What a commit reply says about the reservation. */
  datatype CommitVerdict =
    | Settled
    | Unknown(code: Option<string>, requestId: Option<string>)
    | ExplicitlyRejected(code: Option<string>, requestId: Option<string>)

  predicate TerminalCode(code: Option<string>) {
    code.Some? && code.value in {"RESERVATION_FINALIZED", "RESERVATION_EXPIRED", "IDEMPOTENCY_MISMATCH"}
  }

  function Classify(reply: Reply): CommitVerdict {
    match reply
    case RaisedError(_) => Unknown(Some("COMMIT_RAISED"), None)
    case Cancelled => Unknown(Some("COMMIT_CANCELLED"), None)
    case Responded(r) =>
      if r.isSuccess then Settled
      else if r.isTransportError then Unknown(Some(OrElse(r.code, "TRANSPORT_ERROR")), r.requestId)
      else if r.isServerError then Unknown(Some(OrElse(r.code, "SERVER_ERROR")), r.requestId)
      else if TerminalCode(r.code) then Unknown(r.code, r.requestId)
      else ExplicitlyRejected(r.code, r.requestId)
  }

  /** All attached fields but the payment provider's reference, which has a place of its own in the receipt. */
  function WithoutPspRef(metadata: map<string, PyValue>): map<string, PyValue> {
    map k | k in metadata && k != "psp_ref" :: metadata[k]
  }

  function PspRef(metadata: map<string, PyValue>): Option<string> {
    if "psp_ref" in metadata && metadata["psp_ref"].PyStr? then Some(metadata["psp_ref"].s) else None
  }

  function ReceiptOf(p: Platform, c: Config, st: GuardState): Result<Receipt, Fault>
    requires st.reservationId.Some? && st.decision.Some?
  {
    var amount := if st.actual.Some? then Ok(st.actual.value) else AmountOf(p, c.mandate);
    match amount
    case Err(fault) => Err(fault)
    case Ok(micros) =>
      Ok(Receipt(st.decision.value, st.reservationId.value, c.tenant, c.agent, c.mandate.transactionId,
                 c.mandate.checkoutHash, c.actionKind, c.mandate.payeeWebsite, p.upper(c.mandate.currency),
                 UNIT, micros, true, PspRef(st.metadata), NonEmpty(WithoutPspRef(st.metadata))))
  }

  datatype CommitStep =
    | Finished(exit: Exit)
    | ThenRelease(release: ReleaseBody, cause: Cause)

  /** A guard that holds a reservation also remembers the decision that granted it. */
  predicate Coherent(st: GuardState) {
    st.reservationId.Some? ==> st.decision.Some?
  }

  function AfterCommit(p: Platform, c: Config, st: GuardState, reply: Reply): (GuardState, CommitStep)
    requires Coherent(st) && st.reservationId.Some?
  {
    match Classify(reply)
    case Settled =>
      var st' := st.(committed := true);
      if !c.emitReceipt then (st', Finished(Clean))
      else (match ReceiptOf(p, c, st')
            case Ok(receipt) => (st'.(receipt := Some(receipt)), Finished(Clean))
            case Err(fault) => (st', Finished(BuildFailed(fault))))
    case Unknown(code, requestId) => (st, Finished(CommitUncertain(code, requestId, st.reservationId.value)))
    case ExplicitlyRejected(code, requestId) =>
      var reason := "ap2_commit_rejected:" + OrElse(code, "UNKNOWN");
      (st, ThenRelease(ReleaseBodyOf(p, c.mandate, reason, Some("CommitRejected")), CommitRejected(code, requestId)))
  }

  /** Whether a release was confirmed, and if not why. */
  function ReleaseResult(reply: Reply): (bool, Option<ReleaseError>)
    requires !reply.Cancelled?
  {
    match reply
    case RaisedError(name) => (false, Some(ReleaseRaised(name)))
    case Responded(r) =>
      if r.isSuccess then (true, None)
      else (false, Some(ReleaseStatus(r.status, if Truthy(r.code) then r.code else None)))
  }

  function AfterRelease(id: string, cause: Cause, reply: Reply): Exit {
    if reply.Cancelled? then ExitCancelled
    else match cause
      case BodyFailed(name) => BodyErrorPropagates(name)
      case Aborted => Clean
      case CommitRejected(code, requestId) =>
        var (released, error) := ReleaseResult(reply);
        CommitFailed(code, requestId, id, released, error)
  }

  // ---- one whole use of a guard ----

  /** The replies a guard gets during one use. */
  datatype Replies = Replies(reserve: ReserveReply, commit: Reply, release: Reply)

  predicate CancellationFree(r: Replies) {
    !r.reserve.ReserveCancelled? && !r.commit.Cancelled? && !r.release.Cancelled?
  }

  /** The exit of a guard: its calls, its final state and how the `with` statement ends. */
  function ExitRun(p: Platform, c: Config, st: GuardState, end: BodyEnd, commit: Reply, release: Reply)
    : (GuardState, seq<Call>, Exit)
    requires Coherent(st)
  {
    match PlanExit(p, c, st, end)
    case NothingToDo => (st, [], if end.RaisedInBody? then BodyErrorPropagates(end.errorType) else Clean)
    case CannotBuild(fault) => (st, [], BuildFailed(fault))
    case SendRelease(id, body, cause) => (st, [Release(id, body)], AfterRelease(id, cause, release))
    case SendCommit(id, body) =>
      var (st', step) := AfterCommit(p, c, st, commit);
      match step
      case Finished(exit) => (st', [Commit(id, body)], exit)
      case ThenRelease(rbody, cause) =>
        (st', [Commit(id, body), Release(id, rbody)], AfterRelease(id, cause, release))
  }

  function EnterRun(p: Platform, c: Config, st: GuardState, reply: ReserveReply): (GuardState, seq<Call>, Entry) {
    match ReserveBodyOf(p, c)
    case Err(fault) => (st, [], MandateRejected(fault))
    case Ok(body) =>
      var (st', entry) := AfterReserve(c, st, reply);
      (st', [Reserve(body)], entry)
  }

  /** Everything there is to see of one use: the exit is there exactly when the body ran. */
  datatype Run = Run(entry: Entry, exit: Option<Exit>, calls: seq<Call>, final: GuardState)

  function RunFrom(p: Platform, c: Config, start: GuardState, ops: seq<Op>, end: BodyEnd, replies: Replies): Run
    requires Coherent(start)
  {
    var (entered, calls, entry) := EnterRun(p, c, start, replies.reserve);
    if !entry.Entered? then Run(entry, None, calls, entered)
    else
      OpsKeepHold(entered, ops);
      var (final, more, exit) := ExitRun(p, c, ApplyOps(entered, ops), end, replies.commit, replies.release);
      Run(entry, Some(exit), calls + more, final)
  }

  function RunOnce(p: Platform, c: Config, ops: seq<Op>, end: BodyEnd, replies: Replies): Run {
    RunFrom(p, c, FRESH, ops, end, replies)
  }

  lemma AppendTwo(calls: seq<Call>, first: Call, second: Call)
    ensures calls + [first] + [second] == calls + [first, second]
  {}

  /** The body changes nothing but the three things its setters are for. */
  lemma {:induction false} OpsKeepHold(st: GuardState, ops: seq<Op>)
    ensures var st' := ApplyOps(st, ops);
      && st'.reservationId == st.reservationId && st'.decision == st.decision
      && st'.committed == st.committed && st'.receipt == st.receipt
  {
    if |ops| > 0 {
      OpsKeepHold(st, ops[..|ops| - 1]);
    }
  }
}
