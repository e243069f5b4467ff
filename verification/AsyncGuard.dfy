/** The asyncio guard. Any of its three awaits may be cancelled. */
module AsyncGuard {
  import opened Basics
  import opened Mandates
  import opened Amounts
  import opened Payloads
  import opened Lifecycle

  /** The asynchronous client. A reply may also be that the awaiting task was cancelled. */
  class AsyncCyclesClient {
    const reserveReply: ReserveReply
    const commitReply: Reply
    const releaseReply: Reply
    var calls: seq<Call>

    constructor (reserveReply: ReserveReply, commitReply: Reply, releaseReply: Reply)
      ensures this.reserveReply == reserveReply && this.commitReply == commitReply && this.releaseReply == releaseReply
      ensures calls == []
    {
      this.reserveReply, this.commitReply, this.releaseReply := reserveReply, commitReply, releaseReply;
      calls := [];
    }

    method CreateReservation(body: ReserveBody) returns (reply: ReserveReply)
      modifies this
      ensures calls == old(calls) + [Reserve(body)] && reply == reserveReply
    {
      calls := calls + [Reserve(body)];
      reply := reserveReply;
    }

    method CommitReservation(id: string, body: CommitBody) returns (reply: Reply)
      modifies this
      ensures calls == old(calls) + [Commit(id, body)] && reply == commitReply
    {
      calls := calls + [Commit(id, body)];
      reply := commitReply;
    }

    method ReleaseReservation(id: string, body: ReleaseBody) returns (reply: Reply)
      modifies this
      ensures calls == old(calls) + [Release(id, body)] && reply == releaseReply
    {
      calls := calls + [Release(id, body)];
      reply := releaseReply;
    }
  }

  class AsyncGuardedPayment {
    const platform: Platform
    const client: AsyncCyclesClient
    const config: Config

    var reservationId: Option<string>
    var decision: Option<Decision>
    var actualMicros: Option<int>
    var commitMetadata: map<string, PyValue>
    var receipt: Option<Receipt>
    var committed: bool
    var abortedReason: Option<string>

    function State(): GuardState
      reads this
    {
      GuardState(reservationId, decision, actualMicros, commitMetadata, receipt, committed, abortedReason)
    }

    constructor (platform: Platform, client: AsyncCyclesClient, config: Config)
      ensures this.platform == platform && this.client == client && this.config == config
      ensures State() == FRESH
    {
      this.platform, this.client, this.config := platform, client, config;
      reservationId, decision, actualMicros, commitMetadata := None, None, None, map[];
      receipt, committed, abortedReason := None, false, None;
    }

    method SetActualMicros(amount: PyValue) returns (raised: Option<Fault>)
      modifies this
      ensures State() == ApplyOp(old(State()), SetActual(amount))
      ensures raised.Some? <==> !(amount.PyInt? && 0 <= amount.i <= MAX_USD_MICROS)
      ensures raised.Some? ==> State() == old(State())
    {
      var checked := ValidateMicros(amount);
      if checked.Err? {
        return Some(checked.error);
      }
      actualMicros := Some(checked.value);
      return None;
    }

    method AttachReceiptFields(fields: map<string, PyValue>)
      modifies this
      ensures State() == ApplyOp(old(State()), Attach(fields))
    {
      commitMetadata := commitMetadata + fields;
    }

    method AbortPayment(reason: string)
      modifies this
      ensures State() == ApplyOp(old(State()), Abort(reason))
    {
      abortedReason := Some(Take(reason, 256));
    }

    method Enter() returns (entry: Entry)
      requires Coherent(State())
      modifies this, client
      ensures Coherent(State())
      ensures (State(), client.calls, entry)
           == var (st, calls, e) := EnterRun(platform, config, old(State()), client.reserveReply);
              (st, old(client.calls) + calls, e)
    {
      var body := BuildReservationBody(platform, config);
      if body.Err? {
        assert client.calls + [] == client.calls;
        return MandateRejected(body.error);
      }
      var reply := client.CreateReservation(body.value);
      match reply {
        case ReserveRaised(name) => return EnterEscaped(name);
        case ReserveCancelled => return EnterCancelled;
        case Refused(error, requestId) => return Denied(error, requestId);
        case Malformed => return EnterEscaped(VALIDATION_ERROR);
        case Decided(granted, id, reason, details) =>
          decision := Some(granted);
          if granted.Deny? {
            return Denied(reason, None);
          }
          if config.dryRun {
            return DryRunResult(granted, reason, details);
          }
          if id.None? {
            return Denied(reason, None);
          }
          reservationId := id;
          return Entered;
      }
    }

    /** What `__aexit__` does; an exception of the body propagates because it returns None. */
    method ExitWith(end: BodyEnd) returns (exit: Exit)
      requires Coherent(State())
      modifies this, client
      ensures Coherent(State())
      ensures (State(), client.calls, exit)
           == var (st, calls, e) := ExitRun(platform, config, old(State()), end,
                                             client.commitReply, client.releaseReply);
              (st, old(client.calls) + calls, e)
    {
      if reservationId.None? {
        assert client.calls + [] == client.calls;
        return if end.RaisedInBody? then BodyErrorPropagates(end.errorType) else Clean;
      }
      if end.RaisedInBody? {
        var done := HandleRelease("ap2_guard_failed:" + end.errorType, end.errorType);
        if done.None? {
          return ExitCancelled;
        }
        return BodyErrorPropagates(end.errorType);
      }
      if abortedReason.Some? {
        var done := HandleRelease("ap2_guard_aborted:" + abortedReason.value, "Aborted");
        if done.None? {
          return ExitCancelled;
        }
        return Clean;
      }
      exit := HandleCommit();
    }

    method HandleCommit() returns (exit: Exit)
      requires Coherent(State()) && reservationId.Some? && abortedReason.None?
      modifies this, client
      ensures Coherent(State())
      ensures (State(), client.calls, exit)
           == var (st, calls, e) := ExitRun(platform, config, old(State()), Returned,
                                             client.commitReply, client.releaseReply);
              (st, old(client.calls) + calls, e)
    {
      var id := reservationId.value;
      var body := BuildCommitBody(platform, config.mandate, actualMicros, NonEmpty(commitMetadata));
      if body.Err? {
        assert client.calls + [] == client.calls;
        return BuildFailed(body.error);
      }
      var reply := client.CommitReservation(id, body.value);
      if reply.Cancelled? {
        return CommitUncertain(Some("COMMIT_CANCELLED"), None, id);
      }
      if reply.RaisedError? {
        return CommitUncertain(Some("COMMIT_RAISED"), None, id);
      }
      var response := reply.response;
      if response.isSuccess {
        committed := true;
        if config.emitReceipt {
          var fault := BuildReceipt();
          if fault.Some? {
            return BuildFailed(fault.value);
          }
        }
        return Clean;
      }
      var code := response.code;
      if response.isTransportError || response.isServerError {
        var synthetic := OrElse(code, if response.isTransportError then "TRANSPORT_ERROR" else "SERVER_ERROR");
        return CommitUncertain(Some(synthetic), response.requestId, id);
      }
      if TerminalCode(code) {
        return CommitUncertain(code, response.requestId, id);
      }
      var done := HandleRelease("ap2_commit_rejected:" + OrElse(code, "UNKNOWN"), "CommitRejected");
      AppendTwo(old(client.calls), Commit(id, body.value), client.calls[|client.calls| - 1]);
      if done.None? {
        return ExitCancelled;
      }
      return CommitFailed(code, response.requestId, id, done.value.0, done.value.1);
    }

    /** None stands for a cancellation, which no clause here catches. */
    method HandleRelease(reason: string, excName: string) returns (result: Option<(bool, Option<ReleaseError>)>)
      requires reservationId.Some?
      modifies client
      ensures client.calls == old(client.calls)
        + [Release(reservationId.value, ReleaseBodyOf(platform, config.mandate, reason, Some(excName)))]
      ensures result == if client.releaseReply.Cancelled? then None else Some(ReleaseResult(client.releaseReply))
    {
      var body := ReleaseBodyOf(platform, config.mandate, reason, Some(excName));
      var reply := client.ReleaseReservation(reservationId.value, body);
      if reply.Cancelled? {
        return None;
      }
      if reply.RaisedError? {
        return Some((false, Some(ReleaseRaised(reply.errorType))));
      }
      if reply.response.isSuccess {
        return Some((true, None));
      }
      var code: Option<string> := None;
      if Truthy(reply.response.code) {
        code := reply.response.code;
      }
      return Some((false, Some(ReleaseStatus(reply.response.status, code))));
    }

    method BuildReceipt() returns (raised: Option<Fault>)
      requires reservationId.Some? && decision.Some?
      modifies this`receipt
      ensures match ReceiptOf(platform, config, old(State()))
        case Ok(built) => raised.None? && State() == old(State()).(receipt := Some(built))
        case Err(fault) => raised == Some(fault) && State() == old(State())
    {
      var amount: int;
      if actualMicros.Some? {
        amount := actualMicros.value;
      } else {
        var converted := AmountMicros(platform, config.mandate);
        if converted.Err? {
          return Some(converted.error);
        }
        amount := converted.value;
      }
      var pspRef: Option<string> := None;
      if "psp_ref" in commitMetadata && commitMetadata["psp_ref"].PyStr? {
        pspRef := Some(commitMetadata["psp_ref"].s);
      }
      var extra := commitMetadata - {"psp_ref"};
      assert extra == WithoutPspRef(commitMetadata);
      receipt := Some(Receipt(
        decision.value, reservationId.value, config.tenant, config.agent, config.mandate.transactionId,
        config.mandate.checkoutHash, config.actionKind, config.mandate.payeeWebsite,
        platform.upper(config.mandate.currency), UNIT, amount, true, pspRef, NonEmpty(extra)));
      return None;
    }
  }
}
