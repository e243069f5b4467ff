/** Any number of guards, sync or async, against one server over a network that loses replies, delays
    requests and delivers them more than once. Each guard takes the steps of its lifecycle; in between
    the server may handle any request ever sent, and reservations may expire. */
module Protocol {
  import opened Mandates
  import opened Payloads
  import opened Lifecycle
  import S = Server

  datatype Phase =
    | Idle
    | Reserving
    | InBody
    | Committing
    | Releasing(cause: Cause)
    | Turned(entry: Entry)
    | Left(exit: Exit)

  /** What has happened to a guard so far: the replies it heard and what its body did. */
  datatype Log = Log(replies: Replies, ops: seq<Op>, end: BodyEnd)

  const NOTHING_YET := Log(Replies(Malformed, Cancelled, Cancelled), [], Returned)

  /** A guard at work: its tenant and construction arguments, its fields, how far it got, every request
      it has put on the wire, and its log. Requests are never taken back. */
  datatype Party = Party(tenant: string, config: Config, state: GuardState, phase: Phase, calls: seq<Call>, log: Log)

  /** A success reply of the server on its way to a guard. */
  datatype Ack = ReserveAck(g: nat, id: string) | CommitAck(g: nat) | ReleaseAck(g: nat)

  datatype World = World(server: S.ServerState, parties: seq<Party>, acks: set<Ack>)

  /** One move of a run. What the environment decides is part of the move. */
  datatype Action =
    | Start(g: nat)
    | Handle(g: nat, k: nat, choice: S.Choice)
    | HearReserve(g: nat, reserveReply: ReserveReply)
    | DoBody(g: nat, ops: seq<Op>, end: BodyEnd)
    | HearCommit(g: nat, reply: Reply)
    | HearRelease(g: nat, reply: Reply)
    | Expire(id: string)

  // ---- the guard's side ----

  function StartParty(p: Platform, party: Party): Party {
    match ReserveBodyOf(p, party.config)
    case Err(fault) => party.(phase := Turned(MandateRejected(fault)))
    case Ok(body) => party.(phase := Reserving, calls := party.calls + [Reserve(body)])
  }

  function AfterHearReserve(party: Party, reply: ReserveReply): Party {
    var (st, entry) := AfterReserve(party.config, party.state, reply);
    party.(state := st,
           phase := if entry.Entered? then InBody else Turned(entry),
           log := party.log.(replies := party.log.replies.(reserve := reply)))
  }

  function AfterBody(p: Platform, party: Party, ops: seq<Op>, end: BodyEnd): Party {
    var next := party.(state := ApplyOps(party.state, ops), log := party.log.(ops := ops, end := end));
    match PlanExit(p, party.config, next.state, end)
    case NothingToDo => next.(phase := Left(if end.RaisedInBody? then BodyErrorPropagates(end.errorType) else Clean))
    case CannotBuild(fault) => next.(phase := Left(BuildFailed(fault)))
    case SendCommit(id, body) => next.(phase := Committing, calls := party.calls + [Commit(id, body)])
    case SendRelease(id, body, cause) =>
      next.(phase := Releasing(cause), calls := party.calls + [Release(id, body)])
  }

  function AfterHearCommit(p: Platform, party: Party, reply: Reply): Party
    requires Coherent(party.state) && party.state.reservationId.Some?
  {
    var (st, step) := AfterCommit(p, party.config, party.state, reply);
    var next := party.(state := st, log := party.log.(replies := party.log.replies.(commit := reply)));
    match step
    case Finished(exit) => next.(phase := Left(exit))
    case ThenRelease(body, cause) =>
      next.(phase := Releasing(cause),
             calls := party.calls + [Release(party.state.reservationId.value, body)])
  }

  function AfterHearRelease(party: Party, reply: Reply): Party
    requires party.phase.Releasing? && party.state.reservationId.Some?
  {
    party.(log := party.log.(replies := party.log.replies.(release := reply)),
           phase := Left(AfterRelease(party.state.reservationId.value, party.phase.cause, reply)))
  }

  /** Only a grant and a success must come from the server. Every other reply - a refusal, any error,
      an exception, a cancellation - may reach a guard at any time, whatever became of its request. */
  predicate Plausible(w: World, a: Action) {
    match a
    case HearReserve(g, reply) =>
      reply.Decided? && !reply.decision.Deny? && reply.reservationId.Some? ==>
        ReserveAck(g, reply.reservationId.value) in w.acks
    case HearCommit(g, reply) => Classify(reply).Settled? ==> CommitAck(g) in w.acks
    case HearRelease(g, reply) => reply.Responded? && reply.response.isSuccess ==> ReleaseAck(g) in w.acks
    case _ => true
  }

  /** Whether a guard can make this move now. */
  predicate Ready(party: Party, a: Action) {
    match a
    case Start(_) => party.phase.Idle?
    case Handle(_, k, _) => k < |party.calls|
    case HearReserve(_, _) => party.phase.Reserving?
    case DoBody(_, _, _) => party.phase.InBody?
    case HearCommit(_, _) => party.phase.Committing? && Coherent(party.state) && party.state.reservationId.Some?
    case HearRelease(_, _) => party.phase.Releasing? && party.state.reservationId.Some?
    case Expire(_) => false
  }

  function Moved(p: Platform, party: Party, a: Action): Party
    requires Ready(party, a)
  {
    match a
    case Start(_) => StartParty(p, party)
    case HearReserve(_, reply) => AfterHearReserve(party, reply)
    case DoBody(_, ops, end) => AfterBody(p, party, ops, end)
    case HearCommit(_, reply) => AfterHearCommit(p, party, reply)
    case HearRelease(_, reply) => AfterHearRelease(party, reply)
    case _ => party
  }

  // ---- the server's side ----

  function Served(w: World, g: nat, k: nat, choice: S.Choice): World
    requires g < |w.parties| && k < |w.parties[g].calls|
  {
    var tenant := w.parties[g].tenant;
    match w.parties[g].calls[k]
    case Reserve(body) =>
      var (s, granted) := S.HandleReserve(w.server, tenant, body, choice);
      w.(server := s, acks := w.acks + if granted.Some? then {ReserveAck(g, granted.value)} else {})
    case Commit(id, body) =>
      var (s, done) := S.HandleCommit(w.server, tenant, id, body, choice);
      w.(server := s, acks := w.acks + if done then {CommitAck(g)} else {})
    case Release(id, body) =>
      var (s, done) := S.HandleRelease(w.server, tenant, id, body, choice);
      w.(server := s, acks := w.acks + if done then {ReleaseAck(g)} else {})
  }

  // ---- runs ----

  /** A move that is not possible leaves the world as it is. */
  function Step(p: Platform, w: World, a: Action): World {
    if a.Expire? then w.(server := S.HandleExpiry(w.server, a.id))
    else if a.g >= |w.parties| || !Ready(w.parties[a.g], a) || !Plausible(w, a) then w
    else if a.Handle? then Served(w, a.g, a.k, a.choice)
    else w.(parties := w.parties[a.g := Moved(p, w.parties[a.g], a)])
  }

  function Exec(p: Platform, w: World, actions: seq<Action>): World {
    if |actions| == 0 then w
    else Step(p, Exec(p, w, actions[..|actions| - 1]), actions[|actions| - 1])
  }

  /** Who takes part: the tenant to which the server attributes the requests, and the guard's arguments. */
  datatype Entrant = Entrant(tenant: string, config: Config)

  function Initial(setup: seq<Entrant>): World {
    World(S.EMPTY_SERVER,
          seq(|setup|, g requires 0 <= g < |setup| =>
            Party(setup[g].tenant, setup[g].config, FRESH, Idle, [], NOTHING_YET)),
          {})
  }

  /** The world after a run of these guards. */
  function After(p: Platform, setup: seq<Entrant>, actions: seq<Action>): World {
    Exec(p, Initial(setup), actions)
  }

  /** Dry runs are not part of this model: how the server caches a probe is not known. */
  predicate Payments(setup: seq<Entrant>) {
    forall g :: 0 <= g < |setup| ==> !setup[g].config.dryRun
  }
}
