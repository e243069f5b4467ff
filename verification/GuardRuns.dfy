/** What holds of every single use of a guard, for every mandate, body and sequence of replies. */
module GuardRuns {
  import opened Basics
  import opened Mandates
  import opened Amounts
  import opened Keys
  import opened Payloads
  import opened Lifecycle

  // ---- the body's history ----

  predicate Accepted(op: Op) {
    op.SetActual? && op.amount.PyInt? && 0 <= op.amount.i <= MAX_USD_MICROS
  }

  /** Position i holds the last amount that was not rejected. */
  ghost predicate LastAccepted(ops: seq<Op>, i: int) {
    0 <= i < |ops| && Accepted(ops[i]) && forall j :: i < j < |ops| ==> !Accepted(ops[j])
  }

  predicate Mentions(op: Op, key: string) {
    op.Attach? && key in op.fields
  }

  /** Position i holds the last attachment of this key. */
  ghost predicate LastMention(ops: seq<Op>, i: int, key: string) {
    0 <= i < |ops| && Mentions(ops[i], key) && forall j :: i < j < |ops| ==> !Mentions(ops[j], key)
  }

  /** Some attachment has this key. */
  ghost predicate Attached(ops: seq<Op>, key: string) {
    exists i :: 0 <= i < |ops| && Mentions(ops[i], key)
  }

  ghost predicate Aborts(ops: seq<Op>) {
    exists i :: 0 <= i < |ops| && ops[i].Abort?
  }

  /** The amount at exit is the last accepted one; rejected amounts leave no trace. */
  lemma {:induction false} ActualIsLastAccepted(st: GuardState, ops: seq<Op>, i: int)
    requires LastAccepted(ops, i)
    ensures ApplyOps(st, ops).actual == Some(ops[i].amount.i)
  {
    var k := |ops| - 1;
    if i < k {
      assert LastAccepted(ops[..k], i);
      ActualIsLastAccepted(st, ops[..k], i);
      assert !Accepted(ops[k]);
    }
  }

  lemma {:induction false} ActualKept(st: GuardState, ops: seq<Op>)
    requires forall i :: 0 <= i < |ops| ==> !Accepted(ops[i])
    ensures ApplyOps(st, ops).actual == st.actual
  {
    if |ops| > 0 {
      ActualKept(st, ops[..|ops| - 1]);
      assert !Accepted(ops[|ops| - 1]);
    }
  }

  /** For each key the metadata at exit holds the value attached last. */
  lemma {:induction false} MetadataIsLastAttached(st: GuardState, ops: seq<Op>, i: int, key: string)
    requires LastMention(ops, i, key)
    ensures key in ApplyOps(st, ops).metadata && ApplyOps(st, ops).metadata[key] == ops[i].fields[key]
  {
    var k := |ops| - 1;
    if i < k {
      assert LastMention(ops[..k], i, key);
      MetadataIsLastAttached(st, ops[..k], i, key);
      assert !Mentions(ops[k], key);
    }
  }

  lemma {:induction false} MetadataKept(st: GuardState, ops: seq<Op>, key: string)
    requires forall i :: 0 <= i < |ops| ==> !Mentions(ops[i], key)
    ensures key in ApplyOps(st, ops).metadata <==> key in st.metadata
    ensures key in st.metadata ==> ApplyOps(st, ops).metadata[key] == st.metadata[key]
  {
    if |ops| > 0 {
      MetadataKept(st, ops[..|ops| - 1], key);
      assert !Mentions(ops[|ops| - 1], key);
    }
  }

  lemma {:induction false} AbortHistory(st: GuardState, ops: seq<Op>)
    ensures ApplyOps(st, ops).aborted.Some? <==> st.aborted.Some? || Aborts(ops)
  {
    if |ops| > 0 {
      var k := |ops| - 1;
      AbortHistory(st, ops[..k]);
      if ops[k].Abort? {
        assert Aborts(ops);
      } else {
        assert forall i :: 0 <= i < k ==> ops[..k][i] == ops[i];
        assert Aborts(ops) <==> Aborts(ops[..k]);
      }
    }
  }

  predicate ActualInRange(st: GuardState) {
    st.actual.Some? ==> 0 <= st.actual.value <= MAX_USD_MICROS
  }

  lemma {:induction false} ActualStaysInRange(st: GuardState, ops: seq<Op>)
    requires ActualInRange(st)
    ensures ActualInRange(ApplyOps(st, ops))
  {
    if |ops| > 0 {
      ActualStaysInRange(st, ops[..|ops| - 1]);
    }
  }

  // ---- pieces of a run ----

  /** The state in which the body hands over to `__exit__`. */
  function AtExit(p: Platform, c: Config, ops: seq<Op>, reply: ReserveReply): GuardState {
    ApplyOps(EnterRun(p, c, FRESH, reply).0, ops)
  }

  lemma AtExitFacts(p: Platform, c: Config, ops: seq<Op>, reply: ReserveReply)
    requires EnterRun(p, c, FRESH, reply).2.Entered?
    ensures reply.Decided? && reply.reservationId.Some? && !reply.decision.Deny? && !c.dryRun
    ensures ReserveBodyOf(p, c).Ok?
    ensures var st := AtExit(p, c, ops, reply);
      && st.reservationId == reply.reservationId && st.decision == Some(reply.decision)
      && !st.committed && st.receipt == None
      && ActualInRange(st)
      && (st.aborted.Some? <==> Aborts(ops))
  {
    var entered := EnterRun(p, c, FRESH, reply).0;
    OpsKeepHold(entered, ops);
    ActualStaysInRange(entered, ops);
    AbortHistory(entered, ops);
  }

  /** Once the reservation body could be built, no commit body can fail to build. */
  lemma CommitBodyBuilds(p: Platform, c: Config, actual: Option<int>, metadata: Option<map<string, PyValue>>)
    requires ReserveBodyOf(p, c).Ok?
    requires actual.Some? ==> 0 <= actual.value <= MAX_USD_MICROS
    ensures var r := CommitBodyOf(p, c.mandate, actual, metadata);
      && r.Ok?
      && r.value.actual == Money(UNIT, if actual.Some? then actual.value else AmountOf(p, c.mandate).value)
      && 0 <= r.value.actual.amount <= MAX_USD_MICROS
      && r.value.idempotencyKey == IdempotencyKey(p, c.mandate, COMMIT, None)
      && r.value.metadata == Supplied(metadata)
  {
    AmountInRange(p, c.mandate);
  }

  // ---- replies ----

  /** The replies to a plain use: it is granted a reservation, and its commit gets this reply. */
  function PlainReplies(commit: Reply): Replies {
    Replies(Decided(Allow, Some("r"), None, NO_DETAILS), commit, Cancelled)
  }

  // ---- how entering ends ----

  /** The response to a reserve request escapes unwrapped, from a guard in any state, exactly when the
      request was made and the client raised, the call was cancelled, or the success body did not
      validate. Transport trouble that a response reports is none of these. */
  lemma EntryEscapesIff(p: Platform, c: Config, start: GuardState, reply: ReserveReply)
    ensures var entry := EnterRun(p, c, start, reply).2;
      entry.EnterEscaped? || entry.EnterCancelled?
      <==> ReserveBodyOf(p, c).Ok? && (reply.ReserveRaised? || reply.Malformed? || reply.ReserveCancelled?)
  {
    hide ReserveBodyOf;
  }

  /** Entering is denied exactly when the request was made and the server refused it, decided against it,
      or, but for a dry run, granted nothing to hold. */
  lemma EntryDeniedIff(p: Platform, c: Config, start: GuardState, reply: ReserveReply)
    ensures EnterRun(p, c, start, reply).2.Denied?
       <==> ReserveBodyOf(p, c).Ok?
            && (reply.Refused?
                || (reply.Decided? && (reply.decision.Deny? || (!c.dryRun && reply.reservationId.None?))))
  {
    hide ReserveBodyOf;
  }

  /** What the outcome of entering tells its caller, in a guard in any state: the fault of the mandate, the
      server's reason, the name of the exception that escapes, or the policy decision of a dry run. */
  lemma EntryTells(p: Platform, c: Config, start: GuardState, reply: ReserveReply)
    ensures match EnterRun(p, c, start, reply).2
      case Entered => ReserveBodyOf(p, c).Ok? && Granted(c, reply)
      case MandateRejected(fault) =>
        ReserveBodyOf(p, c).Err? && (fault == CurrencyFault <==> p.upper(c.mandate.currency) != "USD")
      case Denied(code, requestId) =>
        || (reply.Refused? && code == reply.error && requestId == reply.requestId)
        || (reply.Decided? && code == reply.reasonCode && requestId == None)
      case DryRunResult(decision, reasonCode, details) =>
        && c.dryRun && reply.Decided? && !decision.Deny? && decision == reply.decision
        && reasonCode == reply.reasonCode && details == reply.details
      case EnterEscaped(name) => reply == ReserveRaised(name) || (reply.Malformed? && name == "ValidationError")
      case EnterCancelled => reply.ReserveCancelled?
    ensures EnterRun(p, c, start, reply).2.MandateRejected? <==> EnterRun(p, c, start, reply).1 == []
  {
    hide Representable;
  }

  // ---- the call language ----

  datatype Kind = ReserveKind | CommitKind | ReleaseKind

  function KindOf(call: Call): Kind {
    match call
    case Reserve(_) => ReserveKind
    case Commit(_, _) => CommitKind
    case Release(_, _) => ReleaseKind
  }

  function Kinds(calls: seq<Call>): seq<Kind> {
    seq(|calls|, i requires 0 <= i < |calls| => KindOf(calls[i]))
  }

  /** The reservation a call is about. */
  predicate About(call: Call, id: Option<string>) {
    match call
    case Reserve(_) => true
    case Commit(i, _) => id == Some(i)
    case Release(i, _) => id == Some(i)
  }

  /** The sequence of calls that entry, body and commit verdict call for. */
  ghost function ExpectedKinds(p: Platform, c: Config, ops: seq<Op>, end: BodyEnd, replies: Replies): seq<Kind> {
    if ReserveBodyOf(p, c).Err? then []
    else if !Granted(c, replies.reserve) then [ReserveKind]
    else if end.RaisedInBody? || Aborts(ops) then [ReserveKind, ReleaseKind]
    else if ReadsAsRejection(replies.commit) then [ReserveKind, CommitKind, ReleaseKind]
    else [ReserveKind, CommitKind]
  }

  /** A commit reply that the guard takes for an explicit rejection: an answer that is neither a success,
      nor a transport failure, nor a server error, nor one of the three codes of a finished reservation. */
  predicate ReadsAsRejection(reply: Reply) {
    && reply.Responded?
    && !reply.response.isSuccess && !reply.response.isTransportError && !reply.response.isServerError
    && reply.response.code != Some("RESERVATION_FINALIZED")
    && reply.response.code != Some("RESERVATION_EXPIRED")
    && reply.response.code != Some("IDEMPOTENCY_MISMATCH")
  }

  predicate Succeeded(reply: Reply) {
    reply.Responded? && reply.response.isSuccess
  }

  /** What commit-uncertain tells about the reply behind it: the code of the response, or else one that
      says what went wrong, and the request to ask the server about. */
  predicate TellsUncertain(reply: Reply, code: Option<string>, requestId: Option<string>) {
    match reply
    case RaisedError(_) => code == Some("COMMIT_RAISED") && requestId == None
    case Cancelled => code == Some("COMMIT_CANCELLED") && requestId == None
    case Responded(r) =>
      && requestId == r.requestId
      && (Truthy(r.code) ==> code == r.code)
      && (!Truthy(r.code) && r.isTransportError ==> code == Some("TRANSPORT_ERROR"))
      && (!Truthy(r.code) && !r.isTransportError ==> code == Some("SERVER_ERROR") && r.isServerError)
  }

  /** What commit-failed tells about the release: whether it was acknowledged, and if not how it failed. */
  predicate TellsRelease(reply: Reply, released: bool, error: Option<ReleaseError>) {
    match reply
    case Cancelled => false
    case RaisedError(name) => !released && error == Some(ReleaseRaised(name))
    case Responded(r) =>
      if r.isSuccess then released && error == None
      else !released && error == Some(ReleaseStatus(r.status, Present(r.code)))
  }

  lemma VerdictMeans(reply: Reply)
    ensures Classify(reply).ExplicitlyRejected? <==> ReadsAsRejection(reply)
    ensures Classify(reply).Settled? <==> Succeeded(reply)
    ensures Classify(reply).Unknown? ==>
      Truthy(Classify(reply).code) && TellsUncertain(reply, Classify(reply).code, Classify(reply).requestId)
    ensures Classify(reply).ExplicitlyRejected? ==>
      Classify(reply).code == reply.response.code && Classify(reply).requestId == reply.response.requestId
  {}

  /** A body that failed or aborted leads to one release and nothing else. */
  lemma ExitReleases(p: Platform, c: Config, st: GuardState, end: BodyEnd, commit: Reply, release: Reply)
    requires Coherent(st) && st.reservationId.Some? && (end.RaisedInBody? || st.aborted.Some?)
    ensures var (st', calls, exit) := ExitRun(p, c, st, end, commit, release);
      && st' == st
      && |calls| == 1 && calls[0].Release? && calls[0].id == st.reservationId.value
      && exit == (if release.Cancelled? then ExitCancelled
                  else if end.RaisedInBody? then BodyErrorPropagates(end.errorType) else Clean)
  {}

  /** A clean body leads to a commit, followed by a release after an explicit rejection only. */
  lemma ExitCommits(p: Platform, c: Config, st: GuardState, body: CommitBody, commit: Reply, release: Reply)
    requires Coherent(st) && st.reservationId.Some? && st.aborted.None?
    requires CommitBodyOf(p, c.mandate, st.actual, NonEmpty(st.metadata)) == Ok(body)
    ensures var (st', calls, exit) := ExitRun(p, c, st, Returned, commit, release);
      var (after, step) := AfterCommit(p, c, st, commit);
      && st' == after
      && calls == [Commit(st.reservationId.value, body)]
                + (if step.ThenRelease? then [Release(st.reservationId.value, step.release)] else [])
      && exit == if step.ThenRelease? then AfterRelease(st.reservationId.value, step.cause, release) else step.exit
  {}

  lemma CommitSteps(p: Platform, c: Config, st: GuardState, reply: Reply)
    requires Coherent(st) && st.reservationId.Some?
    ensures AfterCommit(p, c, st, reply).1.ThenRelease? <==> Classify(reply).ExplicitlyRejected?
  {}

  lemma ExitKinds(p: Platform, c: Config, st: GuardState, end: BodyEnd, commit: Reply, release: Reply)
    requires Coherent(st) && st.reservationId.Some? && ReserveBodyOf(p, c).Ok? && ActualInRange(st)
    ensures var calls := ExitRun(p, c, st, end, commit, release).1;
      && Kinds(calls) == (if end.RaisedInBody? || st.aborted.Some? then [ReleaseKind]
                          else if Classify(commit).ExplicitlyRejected? then [CommitKind, ReleaseKind] else [CommitKind])
      && (forall i :: 0 <= i < |calls| ==> About(calls[i], st.reservationId))
  {
    hide ExitRun, CommitBodyOf, AfterCommit, ReserveBodyOf, Classify;
    if end.RaisedInBody? || st.aborted.Some? {
      ExitReleases(p, c, st, end, commit, release);
    } else {
      CommitBodyBuilds(p, c, st.actual, NonEmpty(st.metadata));
      ExitCommits(p, c, st, CommitBodyOf(p, c.mandate, st.actual, NonEmpty(st.metadata)).value, commit, release);
      CommitSteps(p, c, st, commit);
    }
  }

  /** Every use of a guard makes exactly one of five call sequences, always about the reservation it
      was given, and which of the five is decided by the mandate, the grant, the body and the verdict
      on the commit. A dry run or a refused reservation never gets past the first call, and without a
      grant the body never runs. */
  lemma CallLanguage(p: Platform, c: Config, ops: seq<Op>, end: BodyEnd, replies: Replies)
    ensures var run := RunOnce(p, c, ops, end, replies);
      && Kinds(run.calls) == ExpectedKinds(p, c, ops, end, replies)
      && (forall i :: 0 <= i < |run.calls| ==> About(run.calls[i], GrantedId(replies.reserve)))
      && (|run.calls| > 0 ==> ReserveBodyOf(p, c).Ok? && run.calls[0] == Reserve(ReserveBodyOf(p, c).value))
      && (run.exit.Some? <==> |run.calls| > 1)
      && (run.exit.Some? <==> ReserveBodyOf(p, c).Ok? && Granted(c, replies.reserve))
  {
    hide ExitRun, CommitBodyOf, Classify, ReserveBodyOf, ApplyOps, Aborts, ReadsAsRejection;
    VerdictMeans(replies.commit);
    var (entered, calls, entry) := EnterRun(p, c, FRESH, replies.reserve);
    if entry.Entered? {
      AtExitFacts(p, c, ops, replies.reserve);
      var st := AtExit(p, c, ops, replies.reserve);
      ExitKinds(p, c, st, end, replies.commit, replies.release);
      KindsAppend(calls, ExitRun(p, c, st, end, replies.commit, replies.release).1);
    }
  }

  lemma KindsAppend(a: seq<Call>, b: seq<Call>)
    ensures Kinds(a + b) == Kinds(a) + Kinds(b)
  {}

  function GrantedId(reply: ReserveReply): Option<string> {
    if reply.Decided? then reply.reservationId else None
  }

  /** A reply that lets the body run. */
  predicate Granted(c: Config, reply: ReserveReply) {
    reply.Decided? && !reply.decision.Deny? && !c.dryRun && reply.reservationId.Some?
  }

  // ---- what the caller is told ----

  /** The run of a guard whose body was let run, in terms of its state at exit. */
  lemma RunUnfolds(p: Platform, c: Config, ops: seq<Op>, end: BodyEnd, replies: Replies)
    requires RunOnce(p, c, ops, end, replies).exit.Some?
    ensures var run := RunOnce(p, c, ops, end, replies);
      var st := AtExit(p, c, ops, replies.reserve);
      && EnterRun(p, c, FRESH, replies.reserve).2.Entered?
      && Coherent(st) && st.reservationId.Some? && ReserveBodyOf(p, c).Ok? && ActualInRange(st)
      && !st.committed && st.receipt == None
      && (st.aborted.Some? <==> Aborts(ops))
      && var (final, more, exit) := ExitRun(p, c, st, end, replies.commit, replies.release);
         run == Run(Entered, Some(exit), [Reserve(ReserveBodyOf(p, c).value)] + more, final)
  {
    hide ExitRun, AmountOf, ApplyOps;
    AtExitFacts(p, c, ops, replies.reserve);
  }

  /** How a commit step ends, by its verdict. */
  lemma CommitOutcomes(p: Platform, c: Config, st: GuardState, reply: Reply)
    requires Coherent(st) && st.reservationId.Some? && ReserveBodyOf(p, c).Ok?
    ensures var (after, step) := AfterCommit(p, c, st, reply);
      match Classify(reply)
      case Settled =>
        && step == Finished(Clean)
        && after.committed
        && after == st.(committed := true, receipt := after.receipt)
        && (if c.emitReceipt then after.receipt.Some? && Ok(after.receipt.value) == ReceiptOf(p, c, st)
            else after.receipt == st.receipt)
      case Unknown(code, requestId) =>
        after == st && step == Finished(CommitUncertain(code, requestId, st.reservationId.value))
      case ExplicitlyRejected(code, requestId) =>
        after == st && step.ThenRelease? && step.cause == CommitRejected(code, requestId)
  {
    hide Classify, WithoutPspRef, PspRef, Representable;
  }

  /** What the end of a `with` statement tells the caller about the calls made on the way out. */
  ghost predicate Truthful(id: string, aborted: bool, end: BodyEnd, calls: seq<Kind>, commit: Reply, release: Reply,
                           exit: Exit, committed: bool)
  {
    && (exit == Clean ==> committed || (aborted && calls == [ReleaseKind]))
    && (committed ==> exit == Clean && calls == [CommitKind])
    && (end.RaisedInBody? ==>
          && calls == [ReleaseKind]
          && exit == if release.Cancelled? then ExitCancelled else BodyErrorPropagates(end.errorType))
    && (end.Returned? && aborted ==>
          && calls == [ReleaseKind]
          && exit == if release.Cancelled? then ExitCancelled else Clean)
    && (end.Returned? && !aborted && !committed ==>
          match exit
          case CommitUncertain(code, requestId, i) =>
            calls == [CommitKind] && i == id && Truthy(code) && TellsUncertain(commit, code, requestId)
          case CommitFailed(code, requestId, i, released, error) =>
            && calls == [CommitKind, ReleaseKind] && i == id
            && commit.Responded? && code == commit.response.code && requestId == commit.response.requestId
            && (released <==> Succeeded(release))
            && TellsRelease(release, released, error)
          case ExitCancelled => calls == [CommitKind, ReleaseKind]
          case _ => false)
    && (exit == ExitCancelled <==> release.Cancelled? && ReleaseKind in calls)
  }

  lemma ExitIsTruthful(p: Platform, c: Config, st: GuardState, end: BodyEnd, commit: Reply, release: Reply)
    requires Coherent(st) && st.reservationId.Some? && ReserveBodyOf(p, c).Ok? && ActualInRange(st) && !st.committed
    ensures var (final, calls, exit) := ExitRun(p, c, st, end, commit, release);
      && Truthful(st.reservationId.value, st.aborted.Some?, end, Kinds(calls), commit, release, exit, final.committed)
      && (final.committed <==> end.Returned? && st.aborted.None? && Succeeded(commit))
  {
    hide ExitRun, CommitBodyOf, Classify, AmountOf, AfterCommit, ReserveBodyOf, ReceiptOf;
    ExitKinds(p, c, st, end, commit, release);
    VerdictMeans(commit);
    assert ReleaseKind in [ReleaseKind] && ReleaseKind in [CommitKind, ReleaseKind] && ReleaseKind !in [CommitKind];
    if end.RaisedInBody? || st.aborted.Some? {
      ExitReleases(p, c, st, end, commit, release);
    } else {
      CommitBodyBuilds(p, c, st.actual, NonEmpty(st.metadata));
      ExitCommits(p, c, st, CommitBodyOf(p, c.mandate, st.actual, NonEmpty(st.metadata)).value, commit, release);
      CommitOutcomes(p, c, st, commit);
    }
  }

  /** Nothing is lost silently. If the `with` statement ends quietly, the payment was committed or the
      caller aborted it. If the body returned unaborted and nothing was committed, the caller gets one
      of two exceptions: commit-uncertain, and then nothing was released, or commit-failed, and then a
      release was attempted and `released` says truthfully whether it was acknowledged. Only a
      cancellation of that release escapes raw. An abort, and an exception of the body, hide whether the
      release went through. */
  lemma NoSilentLoss(p: Platform, c: Config, ops: seq<Op>, end: BodyEnd, replies: Replies)
    requires RunOnce(p, c, ops, end, replies).exit.Some?
    ensures var run := RunOnce(p, c, ops, end, replies);
      && |run.calls| > 0 && GrantedId(replies.reserve).Some?
      && Truthful(GrantedId(replies.reserve).value, Aborts(ops), end, Kinds(run.calls[1..]), replies.commit,
                  replies.release, run.exit.value, run.final.committed)
      && (run.final.committed <==> end.Returned? && !Aborts(ops) && Succeeded(replies.commit))
  {
    hide ExitRun, Classify, AmountOf, ApplyOps, Truthful, RunFrom, ReserveBodyOf, ReadsAsRejection;
    RunUnfolds(p, c, ops, end, replies);
    AtExitFacts(p, c, ops, replies.reserve);
    ExitIsTruthful(p, c, AtExit(p, c, ops, replies.reserve), end, replies.commit, replies.release);
  }

  /** A commit whose reply leaves open whether it settles its reservation: any that was not explicitly
      rejected. */
  predicate MaySettle(call: Call, replies: Replies) {
    call.Commit? && !ReadsAsRejection(replies.commit)
  }

  /** No use of either guard sends a release beside a commit that may settle. What this means against a
      server that applies requests late and lets a release reverse a settlement is in `WorstCase`. */
  lemma NoReleaseBesideOpenCommit(p: Platform, c: Config, ops: seq<Op>, end: BodyEnd, replies: Replies)
    ensures var calls := RunOnce(p, c, ops, end, replies).calls;
      forall i, j :: 0 <= i < |calls| && 0 <= j < |calls| && MaySettle(calls[i], replies) ==> !calls[j].Release?
  {
    hide RunOnce, ReadsAsRejection;
    CallLanguage(p, c, ops, end, replies);
    var calls := RunOnce(p, c, ops, end, replies).calls;
    forall i, j | 0 <= i < |calls| && 0 <= j < |calls| && MaySettle(calls[i], replies) ensures !calls[j].Release? {
      assert Kinds(calls)[i] == CommitKind && Kinds(calls)[j] == KindOf(calls[j]);
    }
  }

  /** Once the reserve request is sent, no body can make the commit request unbuildable: neither
      rejected amounts nor attached fields. */
  lemma NoBuildFailureAfterBody(p: Platform, c: Config, ops: seq<Op>, end: BodyEnd, replies: Replies)
    ensures var run := RunOnce(p, c, ops, end, replies);
      && (run.exit.Some? ==> !run.exit.value.BuildFailed?)
      && (forall i :: 0 <= i < |run.calls| && run.calls[i].Commit? ==>
            0 <= run.calls[i].commit.actual.amount <= MAX_USD_MICROS)
  {
    hide ExitRun, Classify, AmountOf, ApplyOps, Truthful, ReserveBodyOf, CommitBodyOf, AfterCommit;
    var run := RunOnce(p, c, ops, end, replies);
    if run.exit.Some? {
      RunUnfolds(p, c, ops, end, replies);
      SentOnExit(p, c, AtExit(p, c, ops, replies.reserve), end, replies.commit, replies.release);
    }
  }

  /** The commit request, when there is one, is the body built from the state at exit. */
  lemma SentOnExit(p: Platform, c: Config, st: GuardState, end: BodyEnd, commit: Reply, release: Reply)
    requires Coherent(st) && st.reservationId.Some? && ReserveBodyOf(p, c).Ok? && ActualInRange(st)
    ensures var (final, calls, exit) := ExitRun(p, c, st, end, commit, release);
      && !exit.BuildFailed?
      && (|calls| > 0)
      && (calls[0].Commit? <==> end.Returned? && st.aborted.None?)
      && (forall i :: 1 <= i < |calls| ==> !calls[i].Commit?)
      && (calls[0].Commit? ==>
            && calls[0].commit.actual
               == Money(UNIT, if st.actual.Some? then st.actual.value else AmountOf(p, c.mandate).value)
            && 0 <= calls[0].commit.actual.amount <= MAX_USD_MICROS
            && calls[0].commit.idempotencyKey == IdempotencyKey(p, c.mandate, COMMIT, None)
            && calls[0].commit.metadata == NonEmpty(st.metadata))
  {
    hide ExitRun, Classify, AmountOf, ReserveBodyOf, CommitBodyOf, AfterCommit;
    if end.RaisedInBody? || st.aborted.Some? {
      ExitReleases(p, c, st, end, commit, release);
    } else {
      CommitBodyBuilds(p, c, st.actual, NonEmpty(st.metadata));
      ExitCommits(p, c, st, CommitBodyOf(p, c.mandate, st.actual, NonEmpty(st.metadata)).value, commit, release);
      CommitOutcomes(p, c, st, commit);
    }
  }

  /** The commit carries what the body did last: the last accepted amount, else the mandate's, and for
      every key the last attached value. An abort anywhere in the body replaces it by a release. */
  lemma CommitCarriesHistory(p: Platform, c: Config, ops: seq<Op>, end: BodyEnd, replies: Replies)
    requires RunOnce(p, c, ops, end, replies).exit.Some?
    ensures var run := RunOnce(p, c, ops, end, replies);
      && |run.calls| > 1
      && (run.calls[1].Commit? <==> end.Returned? && !Aborts(ops))
      && (run.calls[1].Commit? ==>
            var sent := run.calls[1].commit;
            && sent.idempotencyKey == IdempotencyKey(p, c.mandate, "commit", None)
            && sent.actual.unit == "USD_MICROCENTS"
            && (forall i :: LastAccepted(ops, i) ==> sent.actual.amount == ops[i].amount.i)
            && ((forall i :: 0 <= i < |ops| ==> !Accepted(ops[i])) ==> Ok(sent.actual.amount) == AmountOf(p, c.mandate))
            && (forall key, i :: LastMention(ops, i, key) ==>
                  sent.metadata.Some? && key in sent.metadata.value && sent.metadata.value[key] == ops[i].fields[key])
            && (forall key :: sent.metadata.Some? && key in sent.metadata.value ==> Attached(ops, key))
            && sent.metadata != Some(map[]))
  {
    hide ExitRun, AmountOf, ApplyOps, ReserveBodyOf, RunFrom, Attached;
    RunUnfolds(p, c, ops, end, replies);
    var st := AtExit(p, c, ops, replies.reserve);
    SentOnExit(p, c, st, end, replies.commit, replies.release);
    BodyHistory(EnterRun(p, c, FRESH, replies.reserve).0, ops);
    ReservedAmount(p, c);
  }

  lemma ReservedAmount(p: Platform, c: Config)
    requires ReserveBodyOf(p, c).Ok?
    ensures AmountOf(p, c.mandate).Ok?
  {}

  lemma BodyHistory(start: GuardState, ops: seq<Op>)
    requires start.actual == None && start.metadata == map[]
    ensures var st := ApplyOps(start, ops);
      && (forall i :: LastAccepted(ops, i) ==> st.actual == Some(ops[i].amount.i))
      && ((forall i :: 0 <= i < |ops| ==> !Accepted(ops[i])) ==> st.actual == None)
      && (forall key, i :: LastMention(ops, i, key) ==> key in st.metadata && st.metadata[key] == ops[i].fields[key])
      && (forall key :: key in st.metadata ==> Attached(ops, key))
  {
    hide ApplyOps;
    forall i | LastAccepted(ops, i) ensures ApplyOps(start, ops).actual == Some(ops[i].amount.i) {
      ActualIsLastAccepted(start, ops, i);
    }
    if forall i :: 0 <= i < |ops| ==> !Accepted(ops[i]) {
      ActualKept(start, ops);
    }
    forall key, i | LastMention(ops, i, key)
      ensures key in ApplyOps(start, ops).metadata && ApplyOps(start, ops).metadata[key] == ops[i].fields[key]
    {
      MetadataIsLastAttached(start, ops, i, key);
    }
    forall key | key in ApplyOps(start, ops).metadata ensures Attached(ops, key) {
      if !Attached(ops, key) {
        MetadataKept(start, ops, key);
      }
    }
  }

  // ---- the keys of a run ----

  function KeyOf(call: Call): string {
    match call
    case Reserve(body) => body.idempotencyKey
    case Commit(_, body) => body.idempotencyKey
    case Release(_, body) => body.idempotencyKey
  }

  function PhaseOf(kind: Kind): string {
    match kind
    case ReserveKind => RESERVE
    case CommitKind => COMMIT
    case ReleaseKind => RELEASE
  }

  /** A key that names this mandate's bucket and the phase of the call. */
  ghost predicate KeyFits(p: Platform, m: Mandate, call: Call) {
    exists suffix: Option<string> :: KeyOf(call) == IdempotencyKey(p, m, PhaseOf(KindOf(call)), suffix)
  }

  lemma ReleaseKeyFits(p: Platform, m: Mandate, id: string, reason: string, name: string)
    ensures KeyFits(p, m, Release(id, ReleaseBodyOf(p, m, reason, Some(name))))
  {
    hide IdempotencyKey;
    var call := Release(id, ReleaseBodyOf(p, m, reason, Some(name)));
    assert KeyOf(call) == IdempotencyKey(p, m, PhaseOf(KindOf(call)), Some(name));
  }

  lemma PlannedKeyFits(p: Platform, c: Config, st: GuardState, end: BodyEnd)
    requires st.reservationId.Some?
    ensures match PlanExit(p, c, st, end)
      case SendRelease(id, body, _) => KeyFits(p, c.mandate, Release(id, body))
      case SendCommit(id, body) => KeyFits(p, c.mandate, Commit(id, body))
      case _ => true
  {
    hide IdempotencyKey, ReleaseBodyOf, KeyFits, CommitBodyOf;
    var id := st.reservationId.value;
    if end.RaisedInBody? {
      ReleaseKeyFits(p, c.mandate, id, "ap2_guard_failed:" + end.errorType, end.errorType);
    } else if st.aborted.Some? {
      ReleaseKeyFits(p, c.mandate, id, "ap2_guard_aborted:" + st.aborted.value, "Aborted");
    } else if CommitBodyOf(p, c.mandate, st.actual, NonEmpty(st.metadata)).Ok? {
      CommitKeyFits(p, c, id, st.actual, NonEmpty(st.metadata));
    }
  }

  lemma CommitKeyFits(p: Platform, c: Config, id: string, actual: Option<int>, metadata: Option<map<string, PyValue>>)
    requires CommitBodyOf(p, c.mandate, actual, metadata).Ok?
    ensures KeyFits(p, c.mandate, Commit(id, CommitBodyOf(p, c.mandate, actual, metadata).value))
  {
    hide IdempotencyKey, AmountOf;
    var call := Commit(id, CommitBodyOf(p, c.mandate, actual, metadata).value);
    assert KeyOf(call) == IdempotencyKey(p, c.mandate, PhaseOf(KindOf(call)), None);
  }

  lemma RejectionKeyFits(p: Platform, c: Config, st: GuardState, reply: Reply)
    requires Coherent(st) && st.reservationId.Some?
    ensures var step := AfterCommit(p, c, st, reply).1;
      step.ThenRelease? ==> KeyFits(p, c.mandate, Release(st.reservationId.value, step.release))
  {
    hide IdempotencyKey, ReleaseBodyOf, KeyFits, ReceiptOf, Classify;
    match Classify(reply)
    case ExplicitlyRejected(code, _) =>
      ReleaseKeyFits(p, c.mandate, st.reservationId.value, "ap2_commit_rejected:" + OrElse(code, "UNKNOWN"),
                     "CommitRejected");
    case _ =>
  }

  lemma ExitKeysFit(p: Platform, c: Config, st: GuardState, end: BodyEnd, commit: Reply, release: Reply)
    requires Coherent(st) && st.reservationId.Some?
    ensures var calls := ExitRun(p, c, st, end, commit, release).1;
      forall i :: 0 <= i < |calls| ==> KeyFits(p, c.mandate, calls[i])
  {
    hide KeyFits, PlanExit, AfterCommit;
    PlannedKeyFits(p, c, st, end);
    RejectionKeyFits(p, c, st, commit);
    PlanIsAboutHeld(p, c, st, end);
  }

  lemma PlanIsAboutHeld(p: Platform, c: Config, st: GuardState, end: BodyEnd)
    requires st.reservationId.Some?
    ensures var plan := PlanExit(p, c, st, end);
      && !plan.NothingToDo?
      && (plan.SendCommit? ==> plan.id == st.reservationId.value)
      && (plan.SendRelease? ==> plan.id == st.reservationId.value)
  {
    hide ReleaseBodyOf, CommitBodyOf;
  }

  lemma ReserveKeyFits(p: Platform, c: Config)
    requires ReserveBodyOf(p, c).Ok?
    ensures KeyFits(p, c.mandate, Reserve(ReserveBodyOf(p, c).value))
  {
    hide IdempotencyKey, AmountOf, Dimensions;
    var call := Reserve(ReserveBodyOf(p, c).value);
    assert KeyOf(call) == IdempotencyKey(p, c.mandate, PhaseOf(KindOf(call)), None);
  }

  /** Every request of a run carries a key from which its own phase and the scope and hash of its own
      mandate can be read, so the server can neither mix up the phases nor the buckets. */
  lemma RequestsNameTheirBucket(p: Platform, c: Config, ops: seq<Op>, end: BodyEnd, replies: Replies)
    requires ValidPlatform(p)
    ensures var calls := RunOnce(p, c, ops, end, replies).calls;
      forall i :: 0 <= i < |calls| ==>
        && |KeyOf(calls[i])| <= 122
        && ParseKey(KeyOf(calls[i])).Some?
        && var parts := ParseKey(KeyOf(calls[i])).value;
           && (if Truthy(c.mandate.openMandateHash)
               then (parts.scope, parts.hash) == ("open_mandate", Fingerprint(p, c.mandate.openMandateHash.value))
               else (parts.scope, parts.hash) == ("tx", Fingerprint(p, c.mandate.transactionId)))
           && parts.phase == PhaseOf(KindOf(calls[i]))
  {
    hide RunOnce, IdempotencyKey, ParseKey, ValidPlatform;
    var calls := RunOnce(p, c, ops, end, replies).calls;
    RunKeysFit(p, c, ops, end, replies);
    forall i | 0 <= i < |calls|
      ensures |KeyOf(calls[i])| <= 122
      ensures exists suffix :: ParseKey(KeyOf(calls[i])) == Some(PartsOf(p, c.mandate, PhaseOf(KindOf(calls[i])), suffix))
    {
      assert KeyFits(p, c.mandate, calls[i]);
      var suffix: Option<string> :| KeyOf(calls[i]) == IdempotencyKey(p, c.mandate, PhaseOf(KindOf(calls[i])), suffix);
      PhaseHasNoSeparator(KindOf(calls[i]));
      KeyRoundTrip(p, c.mandate, PhaseOf(KindOf(calls[i])), suffix);
      KeyForm(p, c.mandate, PhaseOf(KindOf(calls[i])), suffix);
    }
  }

  lemma PhaseHasNoSeparator(kind: Kind)
    ensures ':' !in PhaseOf(kind) && Phase(PhaseOf(kind))
  {}

  lemma RunKeysFit(p: Platform, c: Config, ops: seq<Op>, end: BodyEnd, replies: Replies)
    ensures var calls := RunOnce(p, c, ops, end, replies).calls;
      forall i :: 0 <= i < |calls| ==> KeyFits(p, c.mandate, calls[i])
  {
    hide KeyFits, ExitRun, ReserveBodyOf, ApplyOps;
    var (entered, calls, entry) := EnterRun(p, c, FRESH, replies.reserve);
    if ReserveBodyOf(p, c).Ok? {
      ReserveKeyFits(p, c);
    }
    if entry.Entered? {
      AtExitFacts(p, c, ops, replies.reserve);
      ExitKeysFit(p, c, AtExit(p, c, ops, replies.reserve), end, replies.commit, replies.release);
    }
  }

  // ---- the receipt ----

  function OrEmpty(metadata: Option<map<string, PyValue>>): map<string, PyValue> {
    if metadata.Some? then metadata.value else map[]
  }

  /** The metadata as far as a receipt tells it. */
  function Rebuilt(receipt: Receipt): map<string, PyValue> {
    OrEmpty(receipt.extra) + (if receipt.pspRef.Some? then map["psp_ref" := PyStr(receipt.pspRef.value)] else map[])
  }

  lemma RebuildsMetadata(metadata: map<string, PyValue>)
    ensures var told := OrEmpty(NonEmpty(WithoutPspRef(metadata)))
                      + (if PspRef(metadata).Some? then map["psp_ref" := PyStr(PspRef(metadata).value)] else map[]);
      told == metadata <==> ("psp_ref" in metadata ==> metadata["psp_ref"].PyStr?)
  {
    var rest := WithoutPspRef(metadata);
    assert OrEmpty(NonEmpty(rest)) == rest;
    assert "psp_ref" !in rest;
    var told := rest + (if PspRef(metadata).Some? then map["psp_ref" := PyStr(PspRef(metadata).value)] else map[]);
    if "psp_ref" in metadata && !metadata["psp_ref"].PyStr? {
      assert "psp_ref" !in told;
    } else {
      assert forall k :: k in told <==> k in metadata;
    }
  }

  /** The receipt is about the payment that the reserve request named, granted by this decision. */
  predicate SamePayment(c: Config, r: Receipt, decision: Decision, asked: ReserveBody) {
    && r.decision == decision
    && r.tenant == c.tenant && r.agent == c.agent && r.actionKind == asked.actionKind
    && Some(r.transactionId) == Lookup(asked.subject.dimensions, "ap2_transaction_id")
    && Some(r.host) == Lookup(asked.subject.dimensions, "payee_website")
    && Some(r.currency) == Lookup(asked.subject.dimensions, "payment_currency")
    && r.checkoutHash == c.mandate.checkoutHash
    && (Truthy(r.checkoutHash) ==> r.checkoutHash == Lookup(asked.subject.dimensions, "checkout_hash"))
  }

  /** The attached fields on the receipt: a payment provider's reference that is a string, and all others. */
  predicate SplitsMetadata(r: Receipt, metadata: map<string, PyValue>) {
    && (r.pspRef.Some? <==> "psp_ref" in metadata && metadata["psp_ref"].PyStr?)
    && (r.pspRef.Some? ==> metadata["psp_ref"] == PyStr(r.pspRef.value))
    && r.extra != Some(map[]) && OrEmpty(r.extra) == metadata - {"psp_ref"}
  }

  /** A receipt exists exactly when the payment was committed and receipts are wanted. It is about the
      payment that the reserve request named, under the decision that was heard. It names the reservation
      and the very amount that the commit request carried, although both are computed anew, and the
      metadata sent can be rebuilt from it unless a `psp_ref` was attached that is no string. */
  lemma ReceiptAgrees(p: Platform, c: Config, ops: seq<Op>, end: BodyEnd, replies: Replies)
    ensures var run := RunOnce(p, c, ops, end, replies);
      && (run.final.receipt.Some? <==> run.final.committed && c.emitReceipt)
      && (run.final.receipt.Some? ==>
            var r := run.final.receipt.value;
            && |run.calls| == 2 && run.calls[0].Reserve? && run.calls[1].Commit? && replies.reserve.Decided?
            && SamePayment(c, r, replies.reserve.decision, run.calls[0].reserve)
            && var sent := run.calls[1].commit;
            && SplitsMetadata(r, OrEmpty(sent.metadata))
            && r.committed && r.reservationId == run.calls[1].id
            && r.amountMicros == sent.actual.amount && r.unit == sent.actual.unit
            && (Rebuilt(r) == OrEmpty(sent.metadata)
                <==> ("psp_ref" in OrEmpty(sent.metadata) ==> OrEmpty(sent.metadata)["psp_ref"].PyStr?)))
  {
    hide ExitRun, AmountOf, ApplyOps, ReserveBodyOf, RunFrom, ReceiptOf, Classify, WithoutPspRef, PspRef, SamePayment,
      SplitsMetadata;
    var run := RunOnce(p, c, ops, end, replies);
    if run.exit.Some? {
      RunUnfolds(p, c, ops, end, replies);
      AtExitFacts(p, c, ops, replies.reserve);
      ReceiptOnExit(p, c, AtExit(p, c, ops, replies.reserve), end, replies.commit, replies.release);
    } else {
      NoReceiptBeforeBody(p, c, ops, end, replies);
    }
  }

  lemma NoReceiptBeforeBody(p: Platform, c: Config, ops: seq<Op>, end: BodyEnd, replies: Replies)
    requires RunOnce(p, c, ops, end, replies).exit.None?
    ensures var run := RunOnce(p, c, ops, end, replies);
      run.final.receipt.None? && !run.final.committed
  {
    hide ExitRun, AmountOf, ApplyOps, ReserveBodyOf;
  }

  lemma ReceiptOnExit(p: Platform, c: Config, st: GuardState, end: BodyEnd, commit: Reply, release: Reply)
    requires Coherent(st) && st.reservationId.Some? && ReserveBodyOf(p, c).Ok? && ActualInRange(st)
    requires !st.committed && st.receipt.None?
    ensures var (final, calls, exit) := ExitRun(p, c, st, end, commit, release);
      && (final.receipt.Some? <==> final.committed && c.emitReceipt)
      && (final.receipt.Some? ==>
            && |calls| == 1 && calls[0].Commit?
            && var r, sent := final.receipt.value, calls[0].commit;
            && SamePayment(c, r, st.decision.value, ReserveBodyOf(p, c).value)
            && SplitsMetadata(r, OrEmpty(sent.metadata))
            && r.committed && r.reservationId == calls[0].id
            && r.amountMicros == sent.actual.amount && r.unit == sent.actual.unit
            && (Rebuilt(r) == OrEmpty(sent.metadata)
                <==> ("psp_ref" in OrEmpty(sent.metadata) ==> OrEmpty(sent.metadata)["psp_ref"].PyStr?)))
  {
    hide ExitRun, Classify, AmountOf, ReserveBodyOf, CommitBodyOf, AfterCommit, WithoutPspRef, PspRef, Rebuilt;
    hide SamePayment, SplitsMetadata;
    if end.RaisedInBody? || st.aborted.Some? {
      ExitReleases(p, c, st, end, commit, release);
    } else {
      CommitBodyBuilds(p, c, st.actual, NonEmpty(st.metadata));
      ExitCommits(p, c, st, CommitBodyOf(p, c.mandate, st.actual, NonEmpty(st.metadata)).value, commit, release);
      CommitOutcomes(p, c, st, commit);
      var (final, calls, exit) := ExitRun(p, c, st, end, commit, release);
      if final.receipt.Some? {
        SentOnExit(p, c, st, end, commit, release);
        ReceiptTells(p, c, st, final.receipt.value, calls[0].commit);
        ReceiptNamesPayment(p, c, st, final.receipt.value);
        ExtraOnReceipt(p, c, st, final.receipt.value, calls[0].commit);
      }
    }
  }

  lemma ReceiptTells(p: Platform, c: Config, st: GuardState, r: Receipt, sent: CommitBody)
    requires st.reservationId.Some? && st.decision.Some? && ReceiptOf(p, c, st) == Ok(r)
    requires CommitBodyOf(p, c.mandate, st.actual, NonEmpty(st.metadata)) == Ok(sent)
    ensures r.committed && r.reservationId == st.reservationId.value
    ensures r.amountMicros == sent.actual.amount && r.unit == sent.actual.unit
    ensures Rebuilt(r) == OrEmpty(sent.metadata)
       <==> ("psp_ref" in OrEmpty(sent.metadata) ==> OrEmpty(sent.metadata)["psp_ref"].PyStr?)
  {
    hide WithoutPspRef, PspRef, IdempotencyKey, Representable;
    assert OrEmpty(sent.metadata) == st.metadata;
    RebuildsMetadata(st.metadata);
  }

  lemma ExtraOnReceipt(p: Platform, c: Config, st: GuardState, r: Receipt, sent: CommitBody)
    requires st.reservationId.Some? && st.decision.Some? && ReceiptOf(p, c, st) == Ok(r)
    requires sent.metadata == NonEmpty(st.metadata)
    ensures SplitsMetadata(r, OrEmpty(sent.metadata))
  {
    hide AmountOf;
    assert OrEmpty(sent.metadata) == st.metadata;
    assert WithoutPspRef(st.metadata) == st.metadata - {"psp_ref"};
  }

  lemma ReceiptNamesPayment(p: Platform, c: Config, st: GuardState, r: Receipt)
    requires st.reservationId.Some? && st.decision.Some? && ReceiptOf(p, c, st) == Ok(r) && ReserveBodyOf(p, c).Ok?
    ensures SamePayment(c, r, st.decision.value, ReserveBodyOf(p, c).value)
  {
    hide ReserveBodyOf, WithoutPspRef, PspRef, AmountOf;
    RequestSays(p, c);
    assert DescribesPayment(p, c, ReserveBodyOf(p, c).value.subject.dimensions);
  }

  // ---- what a release says ----

  /** Position i holds the last abort. */
  ghost predicate LastAbort(ops: seq<Op>, i: int) {
    0 <= i < |ops| && ops[i].Abort? && forall j :: i < j < |ops| ==> !ops[j].Abort?
  }

  lemma {:induction false} AbortIsLast(st: GuardState, ops: seq<Op>, i: int)
    requires LastAbort(ops, i)
    ensures ApplyOps(st, ops).aborted == Some(Take(ops[i].reason, 256))
  {
    var k := |ops| - 1;
    if i < k {
      assert LastAbort(ops[..k], i);
      AbortIsLast(st, ops[..k], i);
      assert !ops[k].Abort?;
    }
  }

  /** A release under this reason, cut to 256 characters, with this name at the end of its key. */
  predicate ReleasedAs(p: Platform, m: Mandate, body: ReleaseBody, reason: string, name: string) {
    && body.reason <= reason && |body.reason| == (if |reason| <= 256 then |reason| else 256)
    && body.idempotencyKey == IdempotencyKey(p, m, "release", Some(name))
  }

  /** Why a guard in this state releases: the exception of the body before all, then what it was aborted
      for, and else the code of the rejected commit. */
  ghost predicate SaysWhy(p: Platform, m: Mandate, body: ReleaseBody, aborted: Option<string>, end: BodyEnd,
                          commit: Reply)
  {
    if end.RaisedInBody? then ReleasedAs(p, m, body, "ap2_guard_failed:" + end.errorType, end.errorType)
    else if aborted.Some? then ReleasedAs(p, m, body, "ap2_guard_aborted:" + aborted.value, "Aborted")
    else
      && commit.Responded?
      && ReleasedAs(p, m, body, "ap2_commit_rejected:" + OrElse(commit.response.code, "UNKNOWN"), "CommitRejected")
  }

  lemma BuiltAs(p: Platform, m: Mandate, reason: string, name: string)
    ensures ReleasedAs(p, m, ReleaseBodyOf(p, m, reason, Some(name)), reason, name)
  {
    hide IdempotencyKey;
  }

  lemma ReleasesSayWhy(p: Platform, c: Config, st: GuardState, end: BodyEnd, commit: Reply, release: Reply)
    requires Coherent(st) && st.reservationId.Some?
    ensures var calls := ExitRun(p, c, st, end, commit, release).1;
      forall i :: 0 <= i < |calls| && calls[i].Release? ==>
        SaysWhy(p, c.mandate, calls[i].release, st.aborted, end, commit)
  {
    hide IdempotencyKey, ReleaseBodyOf, CommitBodyOf, ReceiptOf, ReleasedAs;
    if end.RaisedInBody? {
      BuiltAs(p, c.mandate, "ap2_guard_failed:" + end.errorType, end.errorType);
    } else if st.aborted.Some? {
      BuiltAs(p, c.mandate, "ap2_guard_aborted:" + st.aborted.value, "Aborted");
    } else if commit.Responded? {
      BuiltAs(p, c.mandate, "ap2_commit_rejected:" + OrElse(commit.response.code, "UNKNOWN"), "CommitRejected");
    }
  }

  /** Every release of a run says why it is made, in its reason and in its key: the exception of the body,
      whatever was aborted before it; else the last abort; else the code of the rejected commit. */
  lemma ReleaseSays(p: Platform, c: Config, ops: seq<Op>, end: BodyEnd, replies: Replies)
    ensures var calls := RunOnce(p, c, ops, end, replies).calls;
      forall i :: 0 <= i < |calls| && calls[i].Release? ==>
        var body := calls[i].release;
        if end.RaisedInBody? then ReleasedAs(p, c.mandate, body, "ap2_guard_failed:" + end.errorType, end.errorType)
        else
          && (forall k :: LastAbort(ops, k) ==>
                ReleasedAs(p, c.mandate, body, "ap2_guard_aborted:" + ops[k].reason, "Aborted"))
          && (!Aborts(ops) ==>
                && replies.commit.Responded?
                && ReleasedAs(p, c.mandate, body, "ap2_commit_rejected:" + OrElse(replies.commit.response.code, "UNKNOWN"),
                              "CommitRejected"))
  {
    hide ExitRun, ApplyOps, ReserveBodyOf, RunFrom, ReleasedAs, Aborts, ReadsAsRejection;
    var run := RunOnce(p, c, ops, end, replies);
    if run.exit.Some? {
      RunUnfolds(p, c, ops, end, replies);
      var st := AtExit(p, c, ops, replies.reserve);
      ReleasesSayWhy(p, c, st, end, replies.commit, replies.release);
      forall i, k | 0 <= i < |run.calls| && run.calls[i].Release? && end.Returned? && LastAbort(ops, k)
        ensures ReleasedAs(p, c.mandate, run.calls[i].release, "ap2_guard_aborted:" + ops[k].reason, "Aborted")
      {
        AbortIsLast(EnterRun(p, c, FRESH, replies.reserve).0, ops, k);
        CutOnce(p, c.mandate, run.calls[i].release, ops[k].reason);
      }
    } else {
      CallLanguage(p, c, ops, end, replies);
      assert forall i :: 0 <= i < |run.calls| ==> KindOf(run.calls[i]) == Kinds(run.calls)[i] == ReserveKind;
    }
  }

  /** Cutting the reason of an abort before it goes into the release changes nothing. */
  lemma CutOnce(p: Platform, m: Mandate, body: ReleaseBody, reason: string)
    requires ReleasedAs(p, m, body, "ap2_guard_aborted:" + Take(reason, 256), "Aborted")
    ensures ReleasedAs(p, m, body, "ap2_guard_aborted:" + reason, "Aborted")
  {
    hide IdempotencyKey;
    assert "ap2_guard_aborted:" + Take(reason, 256) <= "ap2_guard_aborted:" + reason;
  }

  // ---- cancellation ----

  /** A commit that is cancelled ends like one that raised, but for the code reported. */
  lemma CancelledCommitActsAsRaised(p: Platform, c: Config, ops: seq<Op>, end: BodyEnd, replies: Replies, name: string)
    ensures var cancelled := RunOnce(p, c, ops, end, replies.(commit := Cancelled));
      var raised := RunOnce(p, c, ops, end, replies.(commit := RaisedError(name)));
      cancelled == match raised.exit
        case Some(CommitUncertain(code, requestId, id)) =>
          raised.(exit := Some(CommitUncertain(Some("COMMIT_CANCELLED"), requestId, id)))
        case _ => raised
  {
    hide AmountOf, ApplyOps, ReserveBodyOf, CommitBodyOf, ReceiptOf, ReleaseBodyOf;
  }
}
