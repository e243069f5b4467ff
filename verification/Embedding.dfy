/** The protocol leaves nothing out: whatever one guard can do by itself, with any body and any replies, it
    does in some run beside any others. So what is shown of all runs is shown of all uses. */
module Embedding {
  import opened Basics
  import opened Mandates
  import opened Payloads
  import opened Lifecycle
  import opened GuardRuns
  import opened Protocol
  import opened Verdicts
  import opened Replays
  import S = Server

  // ---- worlds that some run reaches ----

  ghost predicate Reached(p: Platform, setup: seq<Entrant>, w: World) {
    exists actions :: After(p, setup, actions) == w
  }

  lemma StepIsReached(p: Platform, setup: seq<Entrant>, w: World, a: Action)
    requires Reached(p, setup, w)
    ensures Reached(p, setup, Step(p, w, a))
  {
    hide Step;
    var actions :| After(p, setup, actions) == w;
    assert (actions + [a])[..|actions + [a]| - 1] == actions;
    assert After(p, setup, actions + [a]) == Step(p, w, a);
  }

  /** This guard has come this far, all others are idle. */
  function Beside(setup: seq<Entrant>, g: nat, q: Party, server: S.ServerState, acks: set<Ack>): World
    requires g < |setup|
  {
    World(server, Alone(setup, g, q), acks)
  }

  lemma NextMove(p: Platform, setup: seq<Entrant>, g: nat, q: Party, server: S.ServerState, acks: set<Ack>, a: Action)
    requires g < |setup| && Reached(p, setup, Beside(setup, g, q, server, acks))
    requires !a.Expire? && !a.Handle? && a.g == g && Ready(q, a) && Plausible(Beside(setup, g, q, server, acks), a)
    ensures Reached(p, setup, Beside(setup, g, Moved(p, q, a), server, acks))
  {
    hide Moved, Ready, Plausible, Alone, Step, Reached;
    var w := Beside(setup, g, q, server, acks);
    AloneMoves(setup, g, q, Moved(p, q, a));
    PartyMoves(p, w, a);
    StepIsReached(p, setup, w, a);
  }

  /** The server does what the guard last asked, and says so. */
  lemma LastServed(p: Platform, setup: seq<Entrant>, g: nat, q: Party, server: S.ServerState, acks: set<Ack>,
                   choice: S.Choice)
    requires g < |setup| && |q.calls| > 0 && Reached(p, setup, Beside(setup, g, q, server, acks))
    ensures var w := Beside(setup, g, q, server, acks);
      g < |w.parties| && w.parties[g] == q && Reached(p, setup, Served(w, g, |q.calls| - 1, choice))
  {
    hide Alone, Step, Reached, Served;
    var w := Beside(setup, g, q, server, acks);
    var a := Handle(g, |q.calls| - 1, choice);
    AloneMoves(setup, g, q, q);
    ServedNext(p, w, a);
    StepIsReached(p, setup, w, a);
  }

  /** The guard can come to this point with the server in this state. */
  ghost predicate Comes(p: Platform, setup: seq<Entrant>, g: nat, q: Party, server: S.ServerState) {
    g < |setup| && exists acks :: Reached(p, setup, Beside(setup, g, q, server, acks))
  }

  /** The guard can come to this point. */
  ghost predicate ComesSomehow(p: Platform, setup: seq<Entrant>, g: nat, q: Party) {
    exists server :: Comes(p, setup, g, q, server)
  }

  lemma ComesAfter(p: Platform, setup: seq<Entrant>, g: nat, q: Party, server: S.ServerState, acks: set<Ack>, a: Action)
    requires g < |setup| && Reached(p, setup, Beside(setup, g, q, server, acks))
    requires !a.Expire? && !a.Handle? && a.g == g && Ready(q, a) && Plausible(Beside(setup, g, q, server, acks), a)
    ensures Comes(p, setup, g, Moved(p, q, a), server)
  {
    hide Moved, Ready, Plausible, Reached, Beside;
    NextMove(p, setup, g, q, server, acks, a);
  }

  // ---- the steps of one use ----

  lemma Asks(p: Platform, setup: seq<Entrant>, g: nat)
    requires g < |setup|
    ensures Comes(p, setup, g, StartParty(p, Unstarted(setup[g])), S.EMPTY_SERVER)
  {
    hide Reached, StartParty;
    var w := Beside(setup, g, Unstarted(setup[g]), S.EMPTY_SERVER, {});
    AloneMoves(setup, g, Unstarted(setup[g]), Unstarted(setup[g]));
    assert Reached(p, setup, w) by { assert After(p, setup, []) == w; ReachedBy(p, setup, []); }
    ComesAfter(p, setup, g, Unstarted(setup[g]), S.EMPTY_SERVER, {}, Start(g));
  }

  lemma ReachedBy(p: Platform, setup: seq<Entrant>, actions: seq<Action>)
    ensures Reached(p, setup, After(p, setup, actions))
  {}

  /** A reply that must come from the server. */
  predicate IsGrant(reply: ReserveReply) {
    reply.Decided? && !reply.decision.Deny? && reply.reservationId.Some?
  }

  /** The server after a reply: it holds the reservation it has granted, or nothing. */
  function ServerAfter(e: Entrant, body: ReserveBody, reply: ReserveReply): S.ServerState {
    if IsGrant(reply) then Holding(e.tenant, body, reply.reservationId.value) else S.EMPTY_SERVER
  }

  lemma HearsReply(p: Platform, setup: seq<Entrant>, g: nat, body: ReserveBody, reply: ReserveReply)
    requires g < |setup| && Comes(p, setup, g, Asking(setup[g], body), S.EMPTY_SERVER)
    ensures Comes(p, setup, g, AfterHearReserve(Asking(setup[g], body), reply), ServerAfter(setup[g], body, reply))
  {
    hide Reached, AfterHearReserve, Holding, Alone, Served;
    var q := Asking(setup[g], body);
    var acks :| Reached(p, setup, Beside(setup, g, q, S.EMPTY_SERVER, acks));
    if IsGrant(reply) {
      var id := reply.reservationId.value;
      LastServed(p, setup, g, q, S.EMPTY_SERVER, acks, S.Choice(false, id));
      FirstServed(Beside(setup, g, q, S.EMPTY_SERVER, acks), g, setup[g], body, id);
      ComesAfter(p, setup, g, q, Holding(setup[g].tenant, body, id), acks + {ReserveAck(g, id)}, HearReserve(g, reply));
    } else {
      ComesAfter(p, setup, g, q, S.EMPTY_SERVER, acks, HearReserve(g, reply));
    }
  }

  lemma RunsBody(p: Platform, setup: seq<Entrant>, g: nat, q: Party, server: S.ServerState, ops: seq<Op>, end: BodyEnd)
    requires Comes(p, setup, g, q, server) && q.phase.InBody?
    ensures Comes(p, setup, g, AfterBody(p, q, ops, end), server)
  {
    hide Reached, AfterBody, Beside;
    var acks :| Reached(p, setup, Beside(setup, g, q, server, acks));
    ComesAfter(p, setup, g, q, server, acks, DoBody(g, ops, end));
  }

  /** A guard on its way out, whose last request is about the reservation that the server holds. */
  predicate Pending(q: Party, tenant: string, body: ReserveBody, id: string) {
    && q.tenant == tenant && |q.calls| > 0 && q.state.reservationId == Some(id) && Coherent(q.state)
    && match q.calls[|q.calls| - 1]
       case Reserve(_) => false
       case Commit(i, _) => i == id && q.phase.Committing?
       case Release(i, _) => i == id && q.phase.Releasing?
  }

  lemma CommitsWith(p: Platform, setup: seq<Entrant>, g: nat, q: Party, body: ReserveBody, id: string, reply: Reply)
    requires g < |setup| && Pending(q, setup[g].tenant, body, id) && q.phase.Committing?
    requires Comes(p, setup, g, q, Holding(setup[g].tenant, body, id))
    ensures ComesSomehow(p, setup, g, AfterHearCommit(p, q, reply))
    ensures !Succeeded(reply) ==> Comes(p, setup, g, AfterHearCommit(p, q, reply), Holding(setup[g].tenant, body, id))
  {
    hide Reached, AfterHearCommit, Alone, Classify;
    var held := Holding(setup[g].tenant, body, id);
    var acks :| Reached(p, setup, Beside(setup, g, q, held, acks));
    VerdictMeans(reply);
    if Succeeded(reply) {
      LastServed(p, setup, g, q, held, acks, S.Choice(false, id));
      var w := Served(Beside(setup, g, q, held, acks), g, |q.calls| - 1, S.Choice(false, id));
      assert w == Beside(setup, g, q, w.server, acks + {CommitAck(g)});
      ComesAfter(p, setup, g, q, w.server, acks + {CommitAck(g)}, HearCommit(g, reply));
    } else {
      ComesAfter(p, setup, g, q, held, acks, HearCommit(g, reply));
    }
  }

  lemma ReleasesWith(p: Platform, setup: seq<Entrant>, g: nat, q: Party, body: ReserveBody, id: string, reply: Reply)
    requires g < |setup| && Pending(q, setup[g].tenant, body, id) && q.phase.Releasing?
    requires Comes(p, setup, g, q, Holding(setup[g].tenant, body, id))
    ensures ComesSomehow(p, setup, g, AfterHearRelease(q, reply))
  {
    hide Reached, AfterHearRelease, Alone;
    var held := Holding(setup[g].tenant, body, id);
    var acks :| Reached(p, setup, Beside(setup, g, q, held, acks));
    if Succeeded(reply) {
      LastServed(p, setup, g, q, held, acks, S.Choice(false, id));
      var w := Served(Beside(setup, g, q, held, acks), g, |q.calls| - 1, S.Choice(false, id));
      assert w == Beside(setup, g, q, w.server, acks + {ReleaseAck(g)});
      ComesAfter(p, setup, g, q, w.server, acks + {ReleaseAck(g)}, HearRelease(g, reply));
    } else {
      ComesAfter(p, setup, g, q, held, acks, HearRelease(g, reply));
    }
  }

  // ---- a whole use ----

  /** The guard is through, and has done what this run says. */
  predicate IsThrough(q: Party, run: Run) {
    && q.state == run.final && q.calls == run.calls
    && q.phase == if run.exit.Some? then Left(run.exit.value) else Turned(run.entry)
  }

  /** Every use happens: for every body and all replies the guard can have, some run of these guards brings
      this one through with exactly the calls, the state and the outcome of that use. */
  lemma EveryUseHappens(p: Platform, setup: seq<Entrant>, g: nat, ops: seq<Op>, end: BodyEnd, replies: Replies)
    requires Payments(setup) && g < |setup|
    ensures exists actions :: var w := After(p, setup, actions);
      g < |w.parties| && IsThrough(w.parties[g], RunOnce(p, setup[g].config, ops, end, replies))
  {
    hide After, RunOnce, Comes;
    var q := UseHappens(p, setup, g, ops, end, replies);
    SomeRun(p, setup, g, q);
  }

  lemma SomeRun(p: Platform, setup: seq<Entrant>, g: nat, q: Party)
    requires ComesSomehow(p, setup, g, q)
    ensures exists actions :: var w := After(p, setup, actions); g < |w.parties| && w.parties[g] == q
  {
    hide After, Alone;
    var server :| Comes(p, setup, g, q, server);
    var acks :| Reached(p, setup, Beside(setup, g, q, server, acks));
    var actions :| After(p, setup, actions) == Beside(setup, g, q, server, acks);
    AloneMoves(setup, g, q, q);
    assert var w := After(p, setup, actions); g < |w.parties| && w.parties[g] == q;
  }

  lemma UseHappens(p: Platform, setup: seq<Entrant>, g: nat, ops: seq<Op>, end: BodyEnd, replies: Replies)
    returns (q: Party)
    requires Payments(setup) && g < |setup|
    ensures ComesSomehow(p, setup, g, q) && IsThrough(q, RunOnce(p, setup[g].config, ops, end, replies))
  {
    hide Comes, ReserveBodyOf, ExitRun, ApplyOps, AfterBody;
    var e := setup[g];
    Asks(p, setup, g);
    if ReserveBodyOf(p, e.config).Err? {
      return StartParty(p, Unstarted(e));
    }
    var body := ReserveBodyOf(p, e.config).value;
    Starts(p, e, body);
    HearsReply(p, setup, g, body, replies.reserve);
    q := AfterHearReserve(Asking(e, body), replies.reserve);
    if q.phase.InBody? {
      var entered := q;
      RunsBody(p, setup, g, q, ServerAfter(e, body, replies.reserve), ops, end);
      q := ExitHappens(p, setup, g, entered, body, ops, end, replies);
    }
  }

  lemma ReleaseMeansRejected(p: Platform, c: Config, st: GuardState, reply: Reply)
    requires Coherent(st) && st.reservationId.Some?
    ensures AfterCommit(p, c, st, reply).1.ThenRelease? ==> !Succeeded(reply) && AfterCommit(p, c, st, reply).0 == st
  {
    hide ReceiptOf, ReleaseBodyOf;
  }

  lemma ExitHappens(p: Platform, setup: seq<Entrant>, g: nat, q: Party, body: ReserveBody, ops: seq<Op>, end: BodyEnd,
                    replies: Replies) returns (q': Party)
    requires g < |setup| && q.tenant == setup[g].tenant && q.config == setup[g].config
    requires q.state.reservationId.Some? && Coherent(q.state) && q.calls == [Reserve(body)]
    requires Comes(p, setup, g, AfterBody(p, q, ops, end), Holding(q.tenant, body, q.state.reservationId.value))
    ensures ComesSomehow(p, setup, g, q')
    ensures Coherent(ApplyOps(q.state, ops))
    ensures var (final, more, exit) := ExitRun(p, q.config, ApplyOps(q.state, ops), end, replies.commit, replies.release);
      q'.state == final && q'.calls == q.calls + more && q'.phase == Left(exit)
  {
    hide Comes, ApplyOps, ReleaseBodyOf, CommitBodyOf, AfterCommit, Holding, AfterRelease;
    var id := q.state.reservationId.value;
    OpsKeepHold(q.state, ops);
    q' := AfterBody(p, q, ops, end);
    if q'.phase.Committing? {
      CommitsWith(p, setup, g, q', body, id, replies.commit);
      ReleaseMeansRejected(p, q.config, q'.state, replies.commit);
      q' := AfterHearCommit(p, q', replies.commit);
    }
    if q'.phase.Releasing? {
      ReleasesWith(p, setup, g, q', body, id, replies.release);
      q' := AfterHearRelease(q', replies.release);
    }
  }

  // ---- a charge that is never settled ----

  const EXPIRED := Responded(Response(false, false, false, 409, Some("RESERVATION_EXPIRED"), None))

  /** A payment whose reservation has expired while its body ran: the body returned, and the caller is told. */
  predicate ExpiredInBody(w: World, g: nat, id: string) {
    && g < |w.parties| && w.parties[g].log.end.Returned?
    && w.parties[g].phase == Left(CommitUncertain(Some("RESERVATION_EXPIRED"), None, id))
    && S.StatusIs(w.server, id, S.Expired)
  }

  lemma HearsExpiry(p: Platform, e: Entrant, body: ReserveBody, id: string, commit: CommitBody)
    ensures var q := AfterHearCommit(p, Charged(e, body, id, commit), EXPIRED);
      q.phase == Left(CommitUncertain(Some("RESERVATION_EXPIRED"), None, id)) && q.log.end.Returned?
  {
    hide ReceiptOf, ReleaseBodyOf;
  }

  lemma IsReachedBy(p: Platform, setup: seq<Entrant>, w: World)
    requires Reached(p, setup, w)
    ensures exists actions :: After(p, setup, actions) == w
  {}

  lemma ChargeExpires(p: Platform, setup: seq<Entrant>, g: nat, id: string, body: ReserveBody) returns (w: World)
    requires Payments(setup) && g < |setup| && ReserveBodyOf(p, setup[g].config) == Ok(body)
    ensures Reached(p, setup, w) && ExpiredInBody(w, g, id)
  {
    hide ReserveBodyOf, Exec, AfterBody, AfterHearCommit, Alone, Reached, LetIn;
    var e := setup[g];
    var held, acks := Holding(e.tenant, body, id), {ReserveAck(g, id)};
    OneIsIn(p, setup, g, id, body);
    ReachedBy(p, setup, PayOnce(g, id)[..3]);
    var commit := Returns(p, e, body, id);
    LetInRuns(e, body, id);
    NextMove(p, setup, g, LetIn(e, body, id), held, acks, DoBody(g, [], Returned));
    var q := Charged(e, body, id, commit);
    StepIsReached(p, setup, Beside(setup, g, q, held, acks), Expire(id));
    var expired := S.HandleExpiry(held, id);
    HearsExpiry(p, e, body, id, commit);
    LetInHolds(e, body, id);
    NextMove(p, setup, g, q, expired, acks, HearCommit(g, EXPIRED));
    w := Beside(setup, g, AfterHearCommit(p, q, EXPIRED), expired, acks);
    AloneMoves(setup, g, AfterHearCommit(p, q, EXPIRED), q);
  }

  lemma LetInRuns(e: Entrant, body: ReserveBody, id: string)
    ensures LetIn(e, body, id).phase.InBody?
  {}

  lemma LetInHolds(e: Entrant, body: ReserveBody, id: string)
    ensures LetIn(e, body, id).state.reservationId == Some(id) && Coherent(LetIn(e, body, id).state)
  {}

  lemma ExpiredWasHeld(p: Platform, setup: seq<Entrant>, g: nat, actions: seq<Action>, id: string)
    requires Payments(setup) && g < |setup| && ExpiredInBody(After(p, setup, actions), g, id)
    ensures ReserveBodyOf(p, setup[g].config).Ok?
  {
    hide After, RunOnce, ReserveBodyOf, S.StatusIs, Aborts, ReadsAsRejection;
    EveryGuardRunsOnce(p, setup, actions, g);
    var log := After(p, setup, actions).parties[g].log;
    CallLanguage(p, setup[g].config, log.ops, log.end, log.replies);
  }

  /** The body may have charged the customer and nothing is ever settled for it: in some run exactly if the
      reservation request can be built. What the guard guarantees is that the caller hears of it. */
  lemma ChargeMayExpireIff(p: Platform, setup: seq<Entrant>, g: nat, id: string)
    requires Payments(setup) && g < |setup|
    ensures (exists actions :: ExpiredInBody(After(p, setup, actions), g, id)) <==> ReserveBodyOf(p, setup[g].config).Ok?
  {
    hide After, ReserveBodyOf, Reached, ExpiredInBody;
    if ReserveBodyOf(p, setup[g].config).Ok? {
      var w := ChargeExpires(p, setup, g, id, ReserveBodyOf(p, setup[g].config).value);
      IsReachedBy(p, setup, w);
    }
    forall actions | ExpiredInBody(After(p, setup, actions), g, id) ensures ReserveBodyOf(p, setup[g].config).Ok? {
      ExpiredWasHeld(p, setup, g, actions, id);
    }
  }
}
