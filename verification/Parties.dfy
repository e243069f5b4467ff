/** Each guard of the protocol, taken by itself, goes through one run of its lifecycle. */
module Parties {
  import opened Basics
  import opened Mandates
  import opened Amounts
  import opened Payloads
  import opened Lifecycle
  import opened GuardRuns
  import opened Protocol

  /** The single-guard run that the log describes. */
  function RunOf(p: Platform, party: Party): Run {
    RunOnce(p, party.config, party.log.ops, party.log.end, party.log.replies)
  }

  function EntryOf(p: Platform, party: Party): (GuardState, seq<Call>, Entry) {
    EnterRun(p, party.config, FRESH, party.log.replies.reserve)
  }

  /** The body is over and the guard is on its way out. */
  predicate Exiting(p: Platform, party: Party) {
    && EntryOf(p, party).2.Entered?
    && party.state == ApplyOps(EntryOf(p, party).0, party.log.ops)
    && Coherent(party.state)
  }

  /** The next request the body's end calls for. */
  function PlanOf(p: Platform, party: Party): ExitPlan {
    PlanExit(p, party.config, party.state, party.log.end)
  }

  /** A guard is as far along its run as its phase says. */
  predicate LocalOk(p: Platform, party: Party) {
    match party.phase
    case Idle => party.state == FRESH && party.calls == []
    case Reserving =>
      && party.state == FRESH && ReserveBodyOf(p, party.config).Ok?
      && party.calls == [Reserve(ReserveBodyOf(p, party.config).value)]
    case InBody => EntryOf(p, party) == (party.state, party.calls, Entered)
    case Committing =>
      && Exiting(p, party) && PlanOf(p, party).SendCommit?
      && party.calls == EntryOf(p, party).1 + [Commit(PlanOf(p, party).id, PlanOf(p, party).commit)]
    case Releasing(cause) => Exiting(p, party) && (ReleasesAtOnce(p, party, cause) || ReleasesAfterCommit(p, party, cause))
    case Turned(entry) => RunOf(p, party) == Run(entry, None, party.calls, party.state)
    case Left(exit) => RunOf(p, party) == Run(Entered, Some(exit), party.calls, party.state)
  }

  predicate ReleasesAtOnce(p: Platform, party: Party, cause: Cause) {
    && PlanOf(p, party).SendRelease? && PlanOf(p, party).cause == cause
    && party.calls == EntryOf(p, party).1 + [Release(PlanOf(p, party).id, PlanOf(p, party).release)]
  }

  predicate ReleasesAfterCommit(p: Platform, party: Party, cause: Cause)
    requires Coherent(party.state)
  {
    && PlanOf(p, party).SendCommit? && party.state.reservationId.Some?
    && var (st, step) := AfterCommit(p, party.config, party.state, party.log.replies.commit);
       && st == party.state && step.ThenRelease? && step.cause == cause
       && party.calls == EntryOf(p, party).1 + [Commit(PlanOf(p, party).id, PlanOf(p, party).commit),
                                                Release(PlanOf(p, party).id, step.release)]
  }

  // ---- every move keeps to the run ----

  lemma StartIsLocal(p: Platform, party: Party)
    requires LocalOk(p, party) && party.phase.Idle?
    ensures LocalOk(p, StartParty(p, party))
  {
    hide AmountOf;
    assert party.calls == [];
  }

  lemma ReserveIsLocal(p: Platform, party: Party, reply: ReserveReply)
    requires LocalOk(p, party) && party.phase.Reserving?
    ensures LocalOk(p, AfterHearReserve(party, reply))
  {
    hide ReserveBodyOf, ExitRun;
  }

  lemma BodyIsLocal(p: Platform, party: Party, ops: seq<Op>, end: BodyEnd)
    requires LocalOk(p, party) && party.phase.InBody?
    ensures LocalOk(p, AfterBody(p, party, ops, end))
  {
    hide ReserveBodyOf, PlanExit, ApplyOps;
    OpsKeepHold(party.state, ops);
    EnteredHolds(p, party);
  }

  lemma EnteredHolds(p: Platform, party: Party)
    requires EntryOf(p, party).2.Entered?
    ensures EntryOf(p, party).0.reservationId.Some? && Coherent(EntryOf(p, party).0)
    ensures EntryOf(p, party).0.actual == None && !EntryOf(p, party).0.committed
    ensures ReserveBodyOf(p, party.config).Ok?
    ensures EntryOf(p, party).1 == [Reserve(ReserveBodyOf(p, party.config).value)]
  {
    hide ReserveBodyOf;
  }

  lemma CommitIsLocal(p: Platform, party: Party, reply: Reply)
    requires LocalOk(p, party) && party.phase.Committing?
    requires party.state.reservationId.Some?
    ensures LocalOk(p, AfterHearCommit(p, party, reply))
  {
    hide ReserveBodyOf, ApplyOps, Classify, ReleaseBodyOf, CommitBodyOf;
  }

  lemma ReleaseIsLocal(p: Platform, party: Party, reply: Reply)
    requires LocalOk(p, party) && party.phase.Releasing?
    requires party.state.reservationId.Some?
    ensures LocalOk(p, AfterHearRelease(party, reply))
  {
    hide ReserveBodyOf, ApplyOps, Classify, ReleaseBodyOf, CommitBodyOf;
  }

  lemma MoveIsLocal(p: Platform, party: Party, a: Action)
    requires LocalOk(p, party) && Ready(party, a)
    ensures LocalOk(p, Moved(p, party, a))
  {
    hide LocalOk, StartParty, AfterHearReserve, AfterBody, AfterHearCommit, AfterHearRelease;
    match a
    case Start(_) => StartIsLocal(p, party);
    case HearReserve(_, reply) => ReserveIsLocal(p, party, reply);
    case DoBody(_, ops, end) => BodyIsLocal(p, party, ops, end);
    case HearCommit(_, reply) => CommitIsLocal(p, party, reply);
    case HearRelease(_, reply) => ReleaseIsLocal(p, party, reply);
    case _ =>
  }

  // ---- what a guard has on the wire ----

  /** The own reservation first, then at most one commit and at most one release, both about the
      reservation the guard holds. */
  predicate CallsOk(p: Platform, party: Party) {
    forall k :: 0 <= k < |party.calls| ==>
      match party.calls[k]
      case Reserve(body) => k == 0 && Ok(body) == ReserveBodyOf(p, party.config)
      case Commit(id, _) => k == 1 && party.state.reservationId == Some(id)
      case Release(id, _) => k == |party.calls| - 1 && k > 0 && party.state.reservationId == Some(id)
  }

  lemma LeftCalls(p: Platform, party: Party)
    requires LocalOk(p, party) && party.phase.Left?
    ensures CallsOk(p, party)
  {
    var c, log := party.config, party.log;
    var st := AtExit(p, c, log.ops, log.replies.reserve);
    hide ReserveBodyOf, ApplyOps, Classify, ExitRun, AtExit;
    RunUnfolds(p, c, log.ops, log.end, log.replies);
    ExitKinds(p, c, st, log.end, log.replies.commit, log.replies.release);
    ExitKeepsHold(p, c, st, log.end, log.replies.commit, log.replies.release);
    var more := ExitRun(p, c, st, log.end, log.replies.commit, log.replies.release).1;
    assert |more| == |Kinds(more)|;
    forall k | 0 <= k < |more| ensures KindOf(more[k]) == Kinds(more)[k] && About(more[k], st.reservationId) {}
  }

  lemma ExitKeepsHold(p: Platform, c: Config, st: GuardState, end: BodyEnd, commit: Reply, release: Reply)
    requires Coherent(st)
    ensures ExitRun(p, c, st, end, commit, release).0.reservationId == st.reservationId
  {
    hide Classify, CommitBodyOf, ReleaseBodyOf, ReceiptOf, AfterRelease;
  }

  lemma CallsAreOk(p: Platform, party: Party)
    requires LocalOk(p, party)
    ensures CallsOk(p, party)
    ensures party.phase.Committing? || party.phase.Releasing? ==>
      Coherent(party.state) && party.state.reservationId.Some? && !party.state.committed && |party.calls| > 1
    ensures party.phase.Committing? ==> party.calls[1].Commit? && |party.calls| == 2
    ensures party.phase.Releasing? ==> party.calls[|party.calls| - 1].Release?
    ensures party.phase.Idle? || party.phase.Reserving? || party.phase.Turned? ==>
      party.state.reservationId.None? && !party.state.committed
    ensures party.phase.InBody? ==> party.state.reservationId.Some? && !party.state.committed
  {
    hide ReserveBodyOf, ApplyOps, Classify, ExitRun, AtExit;
    match party.phase
    case Left(_) => LeftCalls(p, party);
    case Idle =>
    case Reserving =>
    case Turned(_) => TurnedCalls(p, party);
    case InBody => EnteredHolds(p, party);
    case Committing => ExitingHolds(p, party);
    case Releasing(_) => ExitingHolds(p, party);
  }

  lemma TurnedCalls(p: Platform, party: Party)
    requires LocalOk(p, party) && party.phase.Turned?
    ensures CallsOk(p, party) && party.state.reservationId.None? && !party.state.committed
  {
    hide AmountOf, ApplyOps, ExitRun;
  }

  lemma ExitingHolds(p: Platform, party: Party)
    requires Exiting(p, party)
    ensures party.state.reservationId.Some? && !party.state.committed && ReserveBodyOf(p, party.config).Ok?
    ensures EntryOf(p, party).1 == [Reserve(ReserveBodyOf(p, party.config).value)]
    ensures PlanOf(p, party).SendCommit? ==> PlanOf(p, party).id == party.state.reservationId.value
    ensures PlanOf(p, party).SendRelease? ==> PlanOf(p, party).id == party.state.reservationId.value
  {
    hide ReserveBodyOf, ApplyOps, EnterRun, CommitBodyOf, ReleaseBodyOf;
    EnteredHolds(p, party);
    OpsKeepHold(EntryOf(p, party).0, party.log.ops);
  }

  // ---- what a move can change ----

  /** The guard told its caller that the reservation was released. */
  predicate ReportsReleased(party: Party) {
    party.phase.Left? && party.phase.exit.CommitFailed? && party.phase.exit.released
  }

  predicate Grants(a: Action, id: string) {
    a.HearReserve? && a.reserveReply.Decided? && !a.reserveReply.decision.Deny? && a.reserveReply.reservationId == Some(id)
  }

  /** A guard takes a reservation only from a grant it hears, reports a commit only on a success it
      hears, and reports a release only on an acknowledged one. */
  predicate HonestMove(party: Party, a: Action, next: Party) {
    && next.tenant == party.tenant && next.config == party.config
    && party.calls <= next.calls
    && (|party.calls| > 1 && party.calls[|party.calls| - 1].Release? ==> next.calls == party.calls)
    && (next.state.reservationId == party.state.reservationId
        || (next.state.reservationId.Some? && Grants(a, next.state.reservationId.value)))
    && (next.state.committed ==> party.state.committed || (a.HearCommit? && Classify(a.reply).Settled?))
    && (ReportsReleased(next) ==>
          ReportsReleased(party) || (a.HearRelease? && a.reply.Responded? && a.reply.response.isSuccess))
    && (Succeeded(next.log.replies.release) ==>
          Succeeded(party.log.replies.release) || (a.HearRelease? && Succeeded(a.reply)))
  }

  lemma BodyIsHonest(p: Platform, party: Party, ops: seq<Op>, end: BodyEnd)
    requires LocalOk(p, party) && party.phase.InBody?
    ensures HonestMove(party, DoBody(0, ops, end), AfterBody(p, party, ops, end))
  {
    hide ReserveBodyOf, ApplyOps, LocalOk, PlanExit;
    CallsAreOk(p, party);
    OpsKeepHold(party.state, ops);
    OneCall(p, party);
  }

  lemma OneCall(p: Platform, party: Party)
    requires LocalOk(p, party) && party.phase.InBody?
    ensures |party.calls| == 1
  {
    hide ReserveBodyOf;
  }

  lemma CommitIsHonest(p: Platform, party: Party, reply: Reply)
    requires LocalOk(p, party) && party.phase.Committing? && Coherent(party.state) && party.state.reservationId.Some?
    ensures HonestMove(party, HearCommit(0, reply), AfterHearCommit(p, party, reply))
  {
    hide ReserveBodyOf, Classify, LocalOk, ReleaseBodyOf, ReceiptOf;
    CallsAreOk(p, party);
  }

  lemma MoveIsHonest(p: Platform, party: Party, a: Action)
    requires LocalOk(p, party) && Ready(party, a)
    ensures HonestMove(party, a, Moved(p, party, a))
  {
    hide ReserveBodyOf, ApplyOps, PlanExit, AfterCommit, LocalOk, AfterBody, AfterHearCommit, Classify;
    match a
    case DoBody(_, ops, end) => BodyIsHonest(p, party, ops, end);
    case HearCommit(_, reply) => CommitIsHonest(p, party, reply);
    case _ => CallsAreOk(p, party);
  }
}
