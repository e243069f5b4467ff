/** A guard object entered a second time. Its fields are not reset, so the new use starts from whatever
    the first one left behind. */
module Reuse {
  import opened Basics
  import opened Mandates
  import opened Amounts
  import opened Keys
  import opened Payloads
  import opened Lifecycle
  import opened GuardRuns

  /** What an earlier use may have left in the fields of a guard. */
  predicate LeftOver(start: GuardState) {
    Coherent(start) && ActualInRange(start)
  }

  /** The state in which the body of a use from this start hands over to the exit. */
  function AtExitFrom(p: Platform, c: Config, start: GuardState, ops: seq<Op>, reply: ReserveReply): GuardState {
    ApplyOps(EnterRun(p, c, start, reply).0, ops)
  }

  /** Whether the body runs depends on the reply only, not on what was left behind. */
  lemma EntryIgnoresLeftOvers(p: Platform, c: Config, start: GuardState, reply: ReserveReply)
    ensures EnterRun(p, c, start, reply).2 == EnterRun(p, c, FRESH, reply).2
    ensures EnterRun(p, c, start, reply).1 == EnterRun(p, c, FRESH, reply).1
    ensures EnterRun(p, c, start, reply).2.Entered? <==> ReserveBodyOf(p, c).Ok? && Granted(c, reply)
    ensures var st := EnterRun(p, c, start, reply).0;
      && st.actual == start.actual && st.metadata == start.metadata && st.aborted == start.aborted
      && st.committed == start.committed && st.receipt == start.receipt
      && (EnterRun(p, c, start, reply).2.Entered? ==>
            st.reservationId == GrantedId(reply) && st.decision.Some?)
      && (!EnterRun(p, c, start, reply).2.Entered? ==> st.reservationId == start.reservationId)
  {
    hide ReserveBodyOf;
  }

  lemma AtExitFromFacts(p: Platform, c: Config, start: GuardState, ops: seq<Op>, reply: ReserveReply)
    requires LeftOver(start) && EnterRun(p, c, start, reply).2.Entered?
    ensures var st := AtExitFrom(p, c, start, ops, reply);
      && Coherent(st) && st.reservationId == GrantedId(reply) && st.reservationId.Some? && ActualInRange(st)
      && st.committed == start.committed
      && (st.aborted.Some? <==> start.aborted.Some? || Aborts(ops))
    ensures ReserveBodyOf(p, c).Ok? && Granted(c, reply)
  {
    hide ReserveBodyOf, EnterRun, ApplyOps, Aborts;
    EntryIgnoresLeftOvers(p, c, start, reply);
    var entered := EnterRun(p, c, start, reply).0;
    OpsKeepHold(entered, ops);
    ActualStaysInRange(entered, ops);
    AbortHistory(entered, ops);
  }

  lemma ExitKeepsLeftOver(p: Platform, c: Config, st: GuardState, end: BodyEnd, commit: Reply, release: Reply)
    requires LeftOver(st)
    ensures LeftOver(ExitRun(p, c, st, end, commit, release).0)
  {
    hide Classify, CommitBodyOf, ReleaseBodyOf, ReceiptOf, AfterRelease;
  }

  /** Every use leaves the fields as a further use may find them, so what is said here of one further use
      holds of every use in a row. */
  lemma UseKeepsLeftOver(p: Platform, c: Config, start: GuardState, ops: seq<Op>, end: BodyEnd, replies: Replies)
    requires LeftOver(start)
    ensures LeftOver(RunFrom(p, c, start, ops, end, replies).final)
    ensures LeftOver(FRESH)
  {
    hide ReserveBodyOf, EnterRun, ExitRun, ApplyOps, Aborts, Granted;
    EntryIgnoresLeftOvers(p, c, start, replies.reserve);
    if EnterRun(p, c, start, replies.reserve).2.Entered? {
      AtExitFromFacts(p, c, start, ops, replies.reserve);
      ExitKeepsLeftOver(p, c, AtExitFrom(p, c, start, ops, replies.reserve), end, replies.commit, replies.release);
    } else {
      EnterKeepsCoherent(p, c, start, replies.reserve);
    }
  }

  lemma EnterKeepsCoherent(p: Platform, c: Config, start: GuardState, reply: ReserveReply)
    requires Coherent(start)
    ensures Coherent(EnterRun(p, c, start, reply).0)
  {
    hide ReserveBodyOf;
  }

  // ---- what a used guard reports ----

  /** A commit by this very use: it got a grant, its body returned, nothing ever aborted the guard, and
      the commit succeeded. */
  ghost predicate CommitsNow(p: Platform, c: Config, start: GuardState, ops: seq<Op>, end: BodyEnd, replies: Replies) {
    && ReserveBodyOf(p, c).Ok? && Granted(c, replies.reserve)
    && end.Returned? && start.aborted.None? && !Aborts(ops) && Succeeded(replies.commit)
  }

  lemma ReportsOnExit(p: Platform, c: Config, st: GuardState, end: BodyEnd, commit: Reply, release: Reply)
    requires Coherent(st) && st.reservationId.Some? && ReserveBodyOf(p, c).Ok? && ActualInRange(st)
    ensures var final := ExitRun(p, c, st, end, commit, release).0;
      var settles := end.Returned? && st.aborted.None? && Succeeded(commit);
      && (final.committed <==> st.committed || settles)
      && (if settles && c.emitReceipt
          then final.receipt.Some? && Some(final.receipt.value.reservationId) == st.reservationId
          else final.receipt == st.receipt)
      && final.reservationId == st.reservationId && final.decision == st.decision
  {
    hide ExitRun, CommitBodyOf, Classify, AmountOf, AfterCommit, ReserveBodyOf, ReceiptOf, Succeeded;
    VerdictMeans(commit);
    if end.RaisedInBody? || st.aborted.Some? {
      ExitReleases(p, c, st, end, commit, release);
    } else {
      CommitBodyBuilds(p, c, st.actual, NonEmpty(st.metadata));
      ExitCommits(p, c, st, CommitBodyOf(p, c.mandate, st.actual, NonEmpty(st.metadata)).value, commit, release);
      CommitOutcomes(p, c, st, commit);
      ReceiptNamesReservation(p, c, st);
    }
  }

  lemma ReceiptNamesReservation(p: Platform, c: Config, st: GuardState)
    requires Coherent(st) && st.reservationId.Some?
    ensures var r := ReceiptOf(p, c, st);
      r.Ok? ==> Some(r.value.reservationId) == st.reservationId
  {
    hide AmountOf, WithoutPspRef, PspRef;
  }

  lemma ReportsAtExit(p: Platform, c: Config, start: GuardState, ops: seq<Op>, reply: ReserveReply)
    requires EnterRun(p, c, start, reply).2.Entered?
    ensures var st := AtExitFrom(p, c, start, ops, reply);
      && reply.Decided? && st.receipt == start.receipt && st.decision == Some(reply.decision)
  {
    hide ReserveBodyOf, ApplyOps;
    OpsKeepHold(EnterRun(p, c, start, reply).0, ops);
  }

  /** What a guard reports after a further use: each property shows this use if this use has anything to
      say about it, and otherwise what it showed before. */
  lemma ReportsAfterReuse(p: Platform, c: Config, start: GuardState, ops: seq<Op>, end: BodyEnd, replies: Replies)
    requires LeftOver(start)
    ensures var final := RunFrom(p, c, start, ops, end, replies).final;
      var commits := CommitsNow(p, c, start, ops, end, replies);
      && (final.committed <==> start.committed || commits)
      && (if commits && c.emitReceipt
          then final.receipt.Some? && Some(final.receipt.value.reservationId) == GrantedId(replies.reserve)
          else final.receipt == start.receipt)
      && final.reservationId == (if ReserveBodyOf(p, c).Ok? && Granted(c, replies.reserve)
                                 then GrantedId(replies.reserve) else start.reservationId)
      && final.decision == (if ReserveBodyOf(p, c).Ok? && replies.reserve.Decided?
                            then Some(replies.reserve.decision) else start.decision)
  {
    hide ReserveBodyOf, EnterRun, ExitRun, ApplyOps, Aborts, Granted, Succeeded;
    EntryIgnoresLeftOvers(p, c, start, replies.reserve);
    if EnterRun(p, c, start, replies.reserve).2.Entered? {
      AtExitFromFacts(p, c, start, ops, replies.reserve);
      ReportsAtExit(p, c, start, ops, replies.reserve);
      ReportsOnExit(p, c, AtExitFrom(p, c, start, ops, replies.reserve), end, replies.commit, replies.release);
    } else {
      DecisionOnRefusal(p, c, start, replies.reserve);
    }
  }

  lemma DecisionOnRefusal(p: Platform, c: Config, start: GuardState, reply: ReserveReply)
    ensures EnterRun(p, c, start, reply).0.decision
         == if ReserveBodyOf(p, c).Ok? && reply.Decided? then Some(reply.decision) else start.decision
  {
    hide ReserveBodyOf;
  }

  /** A use that says nothing: its reserve reply could not be read. */
  const UNREADABLE := Replies(Malformed, Cancelled, Cancelled)

  /** `committed` never shows a commit that this use did not make exactly if it was false before. */
  lemma StaleCommitIff(p: Platform, c: Config, start: GuardState)
    requires LeftOver(start)
    ensures (forall ops, end, replies :: RunFrom(p, c, start, ops, end, replies).final.committed ==>
               CommitsNow(p, c, start, ops, end, replies))
       <==> !start.committed
  {
    hide RunFrom;
    ReportsAfterReuse(p, c, start, [], Returned, UNREADABLE);
    assert !CommitsNow(p, c, start, [], Returned, UNREADABLE);
    forall ops, end, replies | !start.committed && RunFrom(p, c, start, ops, end, replies).final.committed
      ensures CommitsNow(p, c, start, ops, end, replies)
    {
      ReportsAfterReuse(p, c, start, ops, end, replies);
    }
  }

  /** A receipt after a use is never one of an earlier use, or of none, exactly if there was none before. */
  lemma StaleReceiptIff(p: Platform, c: Config, start: GuardState)
    requires LeftOver(start)
    ensures (forall ops, end, replies :: RunFrom(p, c, start, ops, end, replies).final.receipt.Some? ==>
               CommitsNow(p, c, start, ops, end, replies))
       <==> start.receipt.None?
  {
    hide RunFrom;
    ReportsAfterReuse(p, c, start, [], Returned, UNREADABLE);
    assert !CommitsNow(p, c, start, [], Returned, UNREADABLE);
    forall ops, end, replies | start.receipt.None? && RunFrom(p, c, start, ops, end, replies).final.receipt.Some?
      ensures CommitsNow(p, c, start, ops, end, replies)
    {
      ReportsAfterReuse(p, c, start, ops, end, replies);
    }
  }

  /** The reservation shown after a use is always one that this use was granted exactly if none was held
      before. */
  lemma StaleReservationIff(p: Platform, c: Config, start: GuardState)
    requires LeftOver(start)
    ensures (forall ops, end, replies ::
               var shown := RunFrom(p, c, start, ops, end, replies).final.reservationId;
               shown.Some? ==>
                 ReserveBodyOf(p, c).Ok? && Granted(c, replies.reserve) && shown == GrantedId(replies.reserve))
       <==> start.reservationId.None?
  {
    hide RunFrom, ReserveBodyOf;
    ReportsAfterReuse(p, c, start, [], Returned, UNREADABLE);
    assert RunFrom(p, c, start, [], Returned, UNREADABLE).final.reservationId == start.reservationId;
    forall ops, end, replies | start.reservationId.None?
      ensures var shown := RunFrom(p, c, start, ops, end, replies).final.reservationId;
        shown.Some? ==> ReserveBodyOf(p, c).Ok? && Granted(c, replies.reserve) && shown == GrantedId(replies.reserve)
    {
      ReportsAfterReuse(p, c, start, ops, end, replies);
    }
  }

  /** The same for the decision: it is always the server's answer to this use exactly if there was none. */
  lemma StaleDecisionIff(p: Platform, c: Config, start: GuardState)
    requires LeftOver(start)
    ensures (forall ops, end, replies ::
               var shown := RunFrom(p, c, start, ops, end, replies).final.decision;
               shown.Some? ==> replies.reserve.Decided? && shown == Some(replies.reserve.decision))
       <==> start.decision.None?
  {
    hide RunFrom, ReserveBodyOf;
    ReportsAfterReuse(p, c, start, [], Returned, UNREADABLE);
    assert RunFrom(p, c, start, [], Returned, UNREADABLE).final.decision == start.decision;
    forall ops, end, replies | start.decision.None?
      ensures var shown := RunFrom(p, c, start, ops, end, replies).final.decision;
        shown.Some? ==> replies.reserve.Decided? && shown == Some(replies.reserve.decision)
    {
      ReportsAfterReuse(p, c, start, ops, end, replies);
    }
  }

  // ---- when a used guard behaves like a new one ----

  /** Nothing is left behind that a further use could send: no abort, no metadata, and no amount but
      the mandate's own. */
  predicate NothingLeftToSend(p: Platform, c: Config, start: GuardState) {
    && start.aborted.None? && start.metadata == map[]
    && CommitAmount(p, c.mandate, start.actual) == AmountOf(p, c.mandate)
  }

  /** No reply can let the body of such a guard run. */
  predicate NeverEnters(p: Platform, c: Config) {
    ReserveBodyOf(p, c).Err? || c.dryRun
  }

  /** Two states from which an exit sends the same requests. */
  predicate SendAlike(p: Platform, c: Config, st: GuardState, st': GuardState) {
    && st.metadata == st'.metadata && st.aborted == st'.aborted
    && CommitAmount(p, c.mandate, st.actual) == CommitAmount(p, c.mandate, st'.actual)
  }

  lemma {:induction false} OpsKeepAlike(p: Platform, c: Config, st: GuardState, st': GuardState, ops: seq<Op>)
    requires SendAlike(p, c, st, st')
    ensures SendAlike(p, c, ApplyOps(st, ops), ApplyOps(st', ops))
  {
    if |ops| > 0 {
      var k := |ops| - 1;
      OpsKeepAlike(p, c, st, st', ops[..k]);
      OpKeepsAlike(p, c, ApplyOps(st, ops[..k]), ApplyOps(st', ops[..k]), ops[k]);
    }
  }

  lemma OpKeepsAlike(p: Platform, c: Config, st: GuardState, st': GuardState, op: Op)
    requires SendAlike(p, c, st, st')
    ensures SendAlike(p, c, ApplyOp(st, op), ApplyOp(st', op))
  {
    hide AmountOf;
  }

  lemma AlikePlans(p: Platform, c: Config, st: GuardState, st': GuardState, end: BodyEnd)
    requires SendAlike(p, c, st, st') && st.reservationId == st'.reservationId
    ensures PlanExit(p, c, st, end) == PlanExit(p, c, st', end)
  {
    hide CommitAmount, IdempotencyKey, ReleaseBodyOf;
  }

  lemma AlikeExits(p: Platform, c: Config, st: GuardState, st': GuardState, end: BodyEnd, commit: Reply, release: Reply)
    requires SendAlike(p, c, st, st') && st.reservationId == st'.reservationId && st.reservationId.Some?
    requires Coherent(st) && Coherent(st') && ActualInRange(st) && ActualInRange(st') && ReserveBodyOf(p, c).Ok?
    ensures ExitRun(p, c, st, end, commit, release).1 == ExitRun(p, c, st', end, commit, release).1
    ensures ExitRun(p, c, st, end, commit, release).2 == ExitRun(p, c, st', end, commit, release).2
  {
    hide PlanExit, AfterCommit, SendAlike, ReserveBodyOf, Classify, ReceiptOf;
    AlikePlans(p, c, st, st', end);
    CommitOutcomes(p, c, st, commit);
    CommitOutcomes(p, c, st', commit);
    if Classify(commit).ExplicitlyRejected? {
      SameRejection(p, c, st, st', commit);
    }
  }

  lemma SameRejection(p: Platform, c: Config, st: GuardState, st': GuardState, reply: Reply)
    requires Coherent(st) && Coherent(st') && st.reservationId.Some? && st'.reservationId.Some?
    requires Classify(reply).ExplicitlyRejected?
    ensures AfterCommit(p, c, st, reply).1 == AfterCommit(p, c, st', reply).1
  {
    hide ReleaseBodyOf, ReceiptOf, Classify;
  }

  /** What an observer of one use can tell: how entry and exit ended, and the requests made. */
  predicate ConductAlike(p: Platform, c: Config, start: GuardState, ops: seq<Op>, end: BodyEnd, replies: Replies)
    requires Coherent(start)
  {
    var used, new' := RunFrom(p, c, start, ops, end, replies), RunOnce(p, c, ops, end, replies);
    used.entry == new'.entry && used.exit == new'.exit && used.calls == new'.calls
  }

  lemma NothingLeftIsAlike(p: Platform, c: Config, start: GuardState, ops: seq<Op>, end: BodyEnd, replies: Replies)
    requires LeftOver(start) && (NeverEnters(p, c) || NothingLeftToSend(p, c, start))
    ensures ConductAlike(p, c, start, ops, end, replies)
  {
    hide ReserveBodyOf, EnterRun, ExitRun, ApplyOps, Aborts, Granted, AmountOf;
    EntryIgnoresLeftOvers(p, c, start, replies.reserve);
    EntryIgnoresLeftOvers(p, c, FRESH, replies.reserve);
    if EnterRun(p, c, start, replies.reserve).2.Entered? {
      AtExitFromFacts(p, c, start, ops, replies.reserve);
      AtExitFromFacts(p, c, FRESH, ops, replies.reserve);
      EnteringIsPossible(p, c, replies.reserve);
      OpsKeepAlike(p, c, EnterRun(p, c, start, replies.reserve).0, EnterRun(p, c, FRESH, replies.reserve).0, ops);
      AlikeExits(p, c, AtExitFrom(p, c, start, ops, replies.reserve), AtExitFrom(p, c, FRESH, ops, replies.reserve),
                 end, replies.commit, replies.release);
    }
  }

  lemma EnteringIsPossible(p: Platform, c: Config, reply: ReserveReply)
    requires ReserveBodyOf(p, c).Ok? && Granted(c, reply)
    ensures !NeverEnters(p, c)
  {
    hide ReserveBodyOf;
  }

  /** The second request of a plain use shows what was left behind. */
  lemma PlainUse(p: Platform, c: Config, start: GuardState)
    requires LeftOver(start) && !NeverEnters(p, c)
    ensures var calls := RunFrom(p, c, start, [], Returned, PlainReplies(Cancelled)).calls;
      && |calls| > 1
      && (calls[1].Commit? <==> start.aborted.None?)
      && (calls[1].Commit? ==>
            && Ok(calls[1].commit.actual.amount) == CommitAmount(p, c.mandate, start.actual)
            && calls[1].commit.metadata == NonEmpty(start.metadata))
  {
    hide ReserveBodyOf, EnterRun, ExitRun, Aborts, AmountOf;
    var reply := PlainReplies(Cancelled).reserve;
    EntryIgnoresLeftOvers(p, c, start, reply);
    assert Granted(c, reply);
    AtExitFromFacts(p, c, start, [], reply);
    var st := AtExitFrom(p, c, start, [], reply);
    SentOnExit(p, c, st, Returned, Cancelled, Cancelled);
    ReservedAmount(p, c);
    OneReserve(p, c, start, reply);
  }

  lemma OneReserve(p: Platform, c: Config, start: GuardState, reply: ReserveReply)
    requires ReserveBodyOf(p, c).Ok?
    ensures |EnterRun(p, c, start, reply).1| == 1
  {
    hide ReserveBodyOf;
  }

  /** When a used guard is as good as a new one: its requests and outcomes equal those of a new guard in
      every environment exactly if it can never enter, or if nothing was left behind that could be sent.
      A stale abort, stale metadata or a stale amount shows in some run. */
  lemma ReuseIsLikeNewIff(p: Platform, c: Config, start: GuardState)
    requires LeftOver(start)
    ensures (forall ops, end, replies :: ConductAlike(p, c, start, ops, end, replies))
       <==> NeverEnters(p, c) || NothingLeftToSend(p, c, start)
  {
    hide ConductAlike, NeverEnters, NothingLeftToSend;
    if NeverEnters(p, c) || NothingLeftToSend(p, c, start) {
      forall ops, end, replies ensures ConductAlike(p, c, start, ops, end, replies) {
        NothingLeftIsAlike(p, c, start, ops, end, replies);
      }
    } else if ConductAlike(p, c, start, [], Returned, PlainReplies(Cancelled)) {
      AlikeMeansNothingLeft(p, c, start);
    }
  }

  lemma AlikeMeansNothingLeft(p: Platform, c: Config, start: GuardState)
    requires LeftOver(start) && !NeverEnters(p, c)
    requires ConductAlike(p, c, start, [], Returned, PlainReplies(Cancelled))
    ensures NothingLeftToSend(p, c, start)
  {
    hide RunFrom, NeverEnters, AmountOf;
    PlainUse(p, c, start);
    PlainUse(p, c, FRESH);
  }
}
