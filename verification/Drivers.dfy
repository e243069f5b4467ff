/** Whole uses of the two guard classes: construct, enter, run a body, exit. */
module Drivers {
  import opened Basics
  import opened Mandates
  import opened Payloads
  import opened Lifecycle
  import G = Guard
  import A = AsyncGuard

  /** One use of the synchronous guard. It cannot be cancelled. */
  method RunSync(p: Platform, c: Config, ops: seq<Op>, end: BodyEnd, replies: Replies) returns (run: Run)
    requires CancellationFree(replies)
    ensures run == RunOnce(p, c, ops, end, replies)
  {
    hide EnterRun, ExitRun, ApplyOp;
    var client := new G.CyclesClient(replies.reserve, replies.commit, replies.release);
    var guard := new G.GuardedPayment(p, client, c);
    var entry := guard.Enter();
    ghost var entered := guard.State();
    ghost var calls := client.calls;
    assert calls == EnterRun(p, c, FRESH, replies.reserve).1;
    if !entry.Entered? {
      return Run(entry, None, client.calls, guard.State());
    }
    for i := 0 to |ops|
      invariant guard.State() == ApplyOps(entered, ops[..i])
      invariant client.calls == calls
    {
      assert ops[..i + 1][..i] == ops[..i];
      match ops[i] {
        case SetActual(amount) =>
          var _ := guard.SetActualMicros(amount);
        case Attach(fields) =>
          guard.AttachReceiptFields(fields);
        case Abort(reason) =>
          guard.AbortPayment(reason);
      }
    }
    assert ops[..|ops|] == ops;
    OpsKeepHold(entered, ops);
    var exit := guard.ExitWith(end);
    return Run(entry, Some(exit), client.calls, guard.State());
  }

  /** One use of the asyncio guard. */
  method RunAsync(p: Platform, c: Config, ops: seq<Op>, end: BodyEnd, replies: Replies) returns (run: Run)
    ensures run == RunOnce(p, c, ops, end, replies)
  {
    hide EnterRun, ExitRun, ApplyOp;
    var client := new A.AsyncCyclesClient(replies.reserve, replies.commit, replies.release);
    var guard := new A.AsyncGuardedPayment(p, client, c);
    var entry := guard.Enter();
    ghost var entered := guard.State();
    ghost var calls := client.calls;
    assert calls == EnterRun(p, c, FRESH, replies.reserve).1;
    if !entry.Entered? {
      return Run(entry, None, client.calls, guard.State());
    }
    for i := 0 to |ops|
      invariant guard.State() == ApplyOps(entered, ops[..i])
      invariant client.calls == calls
    {
      assert ops[..i + 1][..i] == ops[..i];
      match ops[i] {
        case SetActual(amount) =>
          var _ := guard.SetActualMicros(amount);
        case Attach(fields) =>
          guard.AttachReceiptFields(fields);
        case Abort(reason) =>
          guard.AbortPayment(reason);
      }
    }
    assert ops[..|ops|] == ops;
    OpsKeepHold(entered, ops);
    var exit := guard.ExitWith(end);
    return Run(entry, Some(exit), client.calls, guard.State());
  }

  /** Without cancellations nobody can tell the two guards apart: on the same mandate, body and replies
      they make the same calls with the same bodies and end in the same state and outcome. */
  method InLockstep(p: Platform, c: Config, ops: seq<Op>, end: BodyEnd, replies: Replies) returns (sync: Run, async: Run)
    requires CancellationFree(replies)
    ensures sync == async
  {
    hide RunOnce;
    sync := RunSync(p, c, ops, end, replies);
    async := RunAsync(p, c, ops, end, replies);
  }
}
