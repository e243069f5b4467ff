/** Runs that show what guards can come to, and exactly when: that a payment is settled, that two bodies
    run on one reservation, and that a commit and a release of it are under way together. */
module Replays {
  import opened Basics
  import opened Mandates
  import opened Keys
  import opened Payloads
  import opened Lifecycle
  import opened Protocol
  import opened Parties
  import opened Interleavings
  import opened Verdicts
  import S = Server

  // ---- two guards and the rest, who stay idle ----

  /** The guards of a setup of which two, `g` and `h`, have moved. */
  function Pair(setup: seq<Entrant>, g: nat, h: nat, a: Party, b: Party): seq<Party>
    requires g < |setup| && h < |setup|
  {
    Initial(setup).parties[g := a][h := b]
  }

  function Unstarted(e: Entrant): Party {
    Party(e.tenant, e.config, FRESH, Idle, [], NOTHING_YET)
  }

  lemma PairMoves(setup: seq<Entrant>, g: nat, h: nat, a: Party, b: Party, next: Party)
    requires g < |setup| && h < |setup| && g != h
    ensures |Pair(setup, g, h, a, b)| == |setup|
    ensures Pair(setup, g, h, a, b)[g] == a && Pair(setup, g, h, a, b)[h] == b
    ensures Pair(setup, g, h, a, b)[g := next] == Pair(setup, g, h, next, b)
    ensures Pair(setup, g, h, a, b)[h := next] == Pair(setup, g, h, a, next)
    ensures Pair(setup, g, h, Unstarted(setup[g]), Unstarted(setup[h])) == Initial(setup).parties
  {}

  lemma ExecNext(p: Platform, w: World, actions: seq<Action>, k: nat)
    requires k < |actions|
    ensures Exec(p, w, actions[..k + 1]) == Step(p, Exec(p, w, actions[..k]), actions[k])
  {
    hide Step;
    assert actions[..k + 1][..k] == actions[..k];
  }

  lemma PartyMoves(p: Platform, w: World, a: Action)
    requires !a.Expire? && !a.Handle? && a.g < |w.parties| && Ready(w.parties[a.g], a) && Plausible(w, a)
    ensures Step(p, w, a) == w.(parties := w.parties[a.g := Moved(p, w.parties[a.g], a)])
  {
    hide Moved, Ready, Plausible;
  }

  // ---- both bodies run ----

  function GrantOf(id: string): ReserveReply {
    Decided(Allow, Some(id), None, NO_DETAILS)
  }

  /** Both guards ask, the first request creates reservation `id`, the second is answered by a replay,
      and both hear of it. */
  function AskBoth(g: nat, h: nat, id: string): seq<Action> {
    [Start(g), Start(h), Handle(g, 0, S.Choice(false, id)), Handle(h, 0, S.Choice(false, id)),
     HearReserve(g, GrantOf(id)), HearReserve(h, GrantOf(id))]
  }

  function Asking(e: Entrant, body: ReserveBody): Party {
    Unstarted(e).(phase := Reserving, calls := [Reserve(body)])
  }

  function LetIn(e: Entrant, body: ReserveBody, id: string): Party {
    Party(e.tenant, e.config, FRESH.(decision := Some(Allow), reservationId := Some(id)), InBody, [Reserve(body)],
          Log(Replies(GrantOf(id), Cancelled, Cancelled), [], Returned))
  }

  /** The server with this one reservation, still active. */
  function Holding(tenant: string, body: ReserveBody, id: string): S.ServerState {
    var b := S.Bucket(tenant, body.idempotencyKey);
    S.EMPTY_SERVER.(reserves := map[b := (body, id)], reservations := map[id := S.Reservation(b, body, S.Active)])
  }

  lemma Starts(p: Platform, e: Entrant, body: ReserveBody)
    requires ReserveBodyOf(p, e.config) == Ok(body)
    ensures StartParty(p, Unstarted(e)) == Asking(e, body)
  {
    hide ReserveBodyOf;
  }

  lemma Hears(e: Entrant, body: ReserveBody, id: string)
    requires !e.config.dryRun
    ensures AfterHearReserve(Asking(e, body), GrantOf(id)) == LetIn(e, body, id)
  {}

  lemma FirstServed(w: World, g: nat, e: Entrant, body: ReserveBody, id: string)
    requires g < |w.parties| && w.parties[g] == Asking(e, body) && w.server == S.EMPTY_SERVER
    ensures Served(w, g, 0, S.Choice(false, id))
         == w.(server := Holding(e.tenant, body, id), acks := w.acks + {ReserveAck(g, id)})
  {}

  lemma SecondServed(w: World, h: nat, e: Entrant, body: ReserveBody, id: string)
    requires h < |w.parties| && w.parties[h] == Asking(e, body) && w.server == Holding(e.tenant, body, id)
    ensures Served(w, h, 0, S.Choice(false, id)) == w.(acks := w.acks + {ReserveAck(h, id)})
  {}

  /** Two payments that the server cannot tell apart: one tenant, and equal reservation requests. */
  predicate Alike(p: Platform, a: Entrant, b: Entrant) {
    && a.tenant == b.tenant
    && ReserveBodyOf(p, a.config).Ok? && ReserveBodyOf(p, a.config) == ReserveBodyOf(p, b.config)
  }

  function RequestOf(p: Platform, e: Entrant): ReserveBody
    requires ReserveBodyOf(p, e.config).Ok?
  {
    ReserveBodyOf(p, e.config).value
  }

  /** Two guards of the setup, with requests that are alike. */
  predicate AlikePair(p: Platform, setup: seq<Entrant>, g: nat, h: nat) {
    g < |setup| && h < |setup| && g != h && Payments(setup) && Alike(p, setup[g], setup[h])
  }

  lemma BothAsk(p: Platform, setup: seq<Entrant>, g: nat, h: nat, actions: seq<Action>)
    requires AlikePair(p, setup, g, h)
    requires |actions| >= 2 && actions[0] == Start(g) && actions[1] == Start(h)
    ensures var body := RequestOf(p, setup[g]);
      Exec(p, Initial(setup), actions[..2])
      == World(S.EMPTY_SERVER, Pair(setup, g, h, Asking(setup[g], body), Asking(setup[h], body)), {})
  {
    hide ReserveBodyOf, Pair, Step, Exec, StartParty;
    var body := RequestOf(p, setup[g]);
    var a, b := Unstarted(setup[g]), Unstarted(setup[h]);
    ExecNext(p, Initial(setup), actions, 0);
    ExecNext(p, Initial(setup), actions, 1);
    NothingYet(p, Initial(setup), actions);
    PairMoves(setup, g, h, a, b, Asking(setup[g], body));
    PairMoves(setup, g, h, Asking(setup[g], body), b, Asking(setup[h], body));
    Starts(p, setup[g], body);
    Starts(p, setup[h], body);
    PartyMoves(p, Initial(setup), Start(g));
    PartyMoves(p, Exec(p, Initial(setup), actions[..1]), Start(h));
  }

  lemma NothingYet(p: Platform, w: World, actions: seq<Action>)
    ensures Exec(p, w, actions[..0]) == w
  {}

  lemma BothServed(p: Platform, setup: seq<Entrant>, g: nat, h: nat, id: string)
    requires AlikePair(p, setup, g, h)
    ensures var body := RequestOf(p, setup[g]);
      var parties := Pair(setup, g, h, Asking(setup[g], body), Asking(setup[h], body));
      var w' := World(Holding(setup[g].tenant, body, id), parties, {ReserveAck(g, id)});
      && Step(p, World(S.EMPTY_SERVER, parties, {}), Handle(g, 0, S.Choice(false, id))) == w'
      && Step(p, w', Handle(h, 0, S.Choice(false, id))) == w'.(acks := {ReserveAck(g, id), ReserveAck(h, id)})
  {
    hide ReserveBodyOf, Pair, Served;
    var body := RequestOf(p, setup[g]);
    var a, b := Asking(setup[g], body), Asking(setup[h], body);
    var w := World(S.EMPTY_SERVER, Pair(setup, g, h, a, b), {});
    PairMoves(setup, g, h, a, b, a);
    FirstServed(w, g, setup[g], body, id);
    SecondServed(w.(server := Holding(setup[g].tenant, body, id), acks := {ReserveAck(g, id)}), h, setup[h], body, id);
  }

  lemma BothHear(p: Platform, setup: seq<Entrant>, g: nat, h: nat, server: S.ServerState, id: string)
    requires AlikePair(p, setup, g, h)
    ensures var body := RequestOf(p, setup[g]);
      var (a, b) := (Asking(setup[g], body), Asking(setup[h], body));
      var (a', b') := (LetIn(setup[g], body, id), LetIn(setup[h], body, id));
      var w := World(server, Pair(setup, g, h, a, b), {ReserveAck(g, id), ReserveAck(h, id)});
      var w' := w.(parties := Pair(setup, g, h, a', b));
      && Step(p, w, HearReserve(g, GrantOf(id))) == w'
      && Step(p, w', HearReserve(h, GrantOf(id))) == w'.(parties := Pair(setup, g, h, a', b'))
  {
    hide ReserveBodyOf, Pair, Step, AfterHearReserve;
    var body := RequestOf(p, setup[g]);
    var a, b := Asking(setup[g], body), Asking(setup[h], body);
    var a', b' := LetIn(setup[g], body, id), LetIn(setup[h], body, id);
    var w := World(server, Pair(setup, g, h, a, b), {ReserveAck(g, id), ReserveAck(h, id)});
    PairMoves(setup, g, h, a, b, a');
    PairMoves(setup, g, h, a', b, b');
    Hears(setup[g], body, id);
    Hears(setup[h], body, id);
    PartyMoves(p, w, HearReserve(g, GrantOf(id)));
    PartyMoves(p, w.(parties := Pair(setup, g, h, a', b)), HearReserve(h, GrantOf(id)));
  }

  /** The world in which both bodies run on one reservation. */
  function BothIn(p: Platform, setup: seq<Entrant>, g: nat, h: nat, id: string): World
    requires AlikePair(p, setup, g, h)
  {
    var body := RequestOf(p, setup[g]);
    World(Holding(setup[g].tenant, body, id), Pair(setup, g, h, LetIn(setup[g], body, id), LetIn(setup[h], body, id)),
          {ReserveAck(g, id), ReserveAck(h, id)})
  }

  lemma BothAreIn(p: Platform, setup: seq<Entrant>, g: nat, h: nat, id: string, actions: seq<Action>)
    requires AlikePair(p, setup, g, h) && AskBoth(g, h, id) <= actions
    ensures Exec(p, Initial(setup), actions[..6]) == BothIn(p, setup, g, h, id)
  {
    hide ReserveBodyOf, Step, Holding, Initial, Exec, Pair, Asking, LetIn, GrantOf;
    assert forall k :: 0 <= k < 6 ==> actions[k] == AskBoth(g, h, id)[k];
    BothAsk(p, setup, g, h, actions);
    ExecNext(p, Initial(setup), actions, 2);
    ExecNext(p, Initial(setup), actions, 3);
    BothServed(p, setup, g, h, id);
    ExecNext(p, Initial(setup), actions, 4);
    ExecNext(p, Initial(setup), actions, 5);
    BothHear(p, setup, g, h, Holding(setup[g].tenant, RequestOf(p, setup[g]), id), id);
  }

  /** A body may run twice for one mandate: an identical replay lets the second guard in as well. What
      happens once is the reservation and the settlement, not the body. */
  lemma BodyMayRunTwice(p: Platform, setup: seq<Entrant>, g: nat, h: nat, id: string)
    requires AlikePair(p, setup, g, h)
    ensures var w := After(p, setup, AskBoth(g, h, id));
      && |w.parties| == |setup|
      && w.parties[g].phase.InBody? && w.parties[h].phase.InBody?
      && w.parties[g].state.reservationId == Some(id) == w.parties[h].state.reservationId
  {
    hide ReserveBodyOf, Step, Holding, Initial, Exec, Pair;
    BothAreIn(p, setup, g, h, id, AskBoth(g, h, id));
    assert AskBoth(g, h, id)[..6] == AskBoth(g, h, id);
    var body := RequestOf(p, setup[g]);
    PairMoves(setup, g, h, LetIn(setup[g], body, id), LetIn(setup[h], body, id), Unstarted(setup[g]));
  }

  /** The bodies of two guards have run on one reservation. */
  predicate RanOnOne(w: World, g: nat, h: nat) {
    && g < |w.parties| && h < |w.parties| && BodyRan(w.parties[g])
    && w.parties[g].state.reservationId == w.parties[h].state.reservationId
  }

  lemma RanMeansAlike(p: Platform, setup: seq<Entrant>, g: nat, h: nat, actions: seq<Action>)
    requires g < |setup| && h < |setup| && RanOnOne(After(p, setup, actions), g, h)
    ensures Alike(p, setup[g], setup[h])
  {
    hide Inv, After, ReserveBodyOf, IdempotencyKey;
    Reachable(p, setup, actions);
    var w := After(p, setup, actions);
    RunningHolds(p, w, g);
    RunningHolds(p, w, h);
    OnFileOnce(p, w, g);
    OnFileOnce(p, w, h);
  }

  /** A reservation tells whose request it was made for. */
  lemma OnFileOnce(p: Platform, w: World, g: nat)
    requires Inv(p, w) && g < |w.parties| && BodyRan(w.parties[g])
    ensures var id := w.parties[g].state.reservationId.value;
      && id in w.server.reservations
      && w.server.reservations[id].bucket.tenant == w.parties[g].tenant
      && Ok(w.server.reservations[id].body) == ReserveBodyOf(p, w.parties[g].config)
  {
    hide GrantsTrue, PartiesOk, S.RepliesTrue, S.LedgerMatches, ReserveBodyOf, IdempotencyKey;
    RunningHolds(p, w, g);
  }

  /** When two bodies run on one reservation: in some run exactly if tenant and reservation request are
      the same. */
  lemma OneReservationForTwoIff(p: Platform, setup: seq<Entrant>, g: nat, h: nat)
    requires Payments(setup) && g < |setup| && h < |setup| && g != h
    ensures (exists actions :: RanOnOne(After(p, setup, actions), g, h)) <==> Alike(p, setup[g], setup[h])
  {
    hide After, Alike;
    if Alike(p, setup[g], setup[h]) {
      BodyMayRunTwice(p, setup, g, h, "r");
      assert RanOnOne(After(p, setup, AskBoth(g, h, "r")), g, h);
    }
    forall actions | RanOnOne(After(p, setup, actions), g, h) ensures Alike(p, setup[g], setup[h]) {
      RanMeansAlike(p, setup, g, h, actions);
    }
  }

  /** When a bucket lets two bodies run: exactly if both guards ask for the very same reservation. The
      bodies of two guards that differ in any part of the request exclude each other in every run. */
  lemma BucketRunsTwiceIff(p: Platform, setup: seq<Entrant>, g: nat, h: nat)
    requires Payments(setup) && g < |setup| && h < |setup| && g != h && SharesBucket(p, setup[g], setup[h])
    ensures (exists actions :: var w := After(p, setup, actions);
               g < |w.parties| && h < |w.parties| && BodyRan(w.parties[g]) && BodyRan(w.parties[h]))
       <==> ReserveBodyOf(p, setup[g].config).Ok?
            && ReserveBodyOf(p, setup[g].config) == ReserveBodyOf(p, setup[h].config)
  {
    hide After, ReserveBodyOf, IdempotencyKey;
    if ReserveBodyOf(p, setup[g].config).Ok? && ReserveBodyOf(p, setup[g].config) == ReserveBodyOf(p, setup[h].config) {
      BodyMayRunTwice(p, setup, g, h, "r");
      var w := After(p, setup, AskBoth(g, h, "r"));
      assert g < |w.parties| && h < |w.parties| && BodyRan(w.parties[g]) && BodyRan(w.parties[h]);
    }
    forall actions | var w := After(p, setup, actions);
        g < |w.parties| && h < |w.parties| && BodyRan(w.parties[g]) && BodyRan(w.parties[h])
      ensures ReserveBodyOf(p, setup[g].config).Ok?
              && ReserveBodyOf(p, setup[g].config) == ReserveBodyOf(p, setup[h].config)
    {
      ConsumeOnce(p, setup, actions, g, h);
    }
  }

  // ---- a commit meets a release ----

  /** Then one body returns and the other one aborts. */
  function PartWays(g: nat, h: nat, id: string, reason: string): seq<Action> {
    AskBoth(g, h, id) + [DoBody(g, [], Returned), DoBody(h, [Abort(reason)], Returned)]
  }

  predicate SentCommit(party: Party, id: string) {
    exists k :: 0 <= k < |party.calls| && party.calls[k].Commit? && party.calls[k].id == id
  }

  predicate SentRelease(party: Party, id: string) {
    exists k :: 0 <= k < |party.calls| && party.calls[k].Release? && party.calls[k].id == id
  }

  /** One guard has asked to commit a reservation and another one to release it, and the server has yet
      to decide between them. */
  predicate Contested(w: World, g: nat, h: nat, id: string) {
    && g < |w.parties| && h < |w.parties| && SentCommit(w.parties[g], id) && SentRelease(w.parties[h], id)
    && S.IsActive(w.server, id)
  }

  lemma FirstReturns(p: Platform, e: Entrant, body: ReserveBody, id: string)
    requires ReserveBodyOf(p, e.config) == Ok(body)
    ensures var q := AfterBody(p, LetIn(e, body, id), [], Returned);
      |q.calls| == 2 && q.calls[1].Commit? && q.calls[1].id == id
  {
    hide IdempotencyKey, Dimensions;
  }

  lemma SecondAborts(p: Platform, e: Entrant, body: ReserveBody, id: string, reason: string)
    ensures var q := AfterBody(p, LetIn(e, body, id), [Abort(reason)], Returned);
      |q.calls| == 2 && q.calls[1].Release? && q.calls[1].id == id
  {
    hide ReleaseBodyOf, CommitBodyOf;
    var st := LetIn(e, body, id).state;
    assert [Abort(reason)][..0] == [];
    assert ApplyOps(st, [Abort(reason)]) == ApplyOp(st, Abort(reason));
  }

  /** Both guards are through with their bodies, as told by these ops. */
  lemma BothGo(p: Platform, setup: seq<Entrant>, g: nat, h: nat, id: string, ops: seq<Op>)
    requires AlikePair(p, setup, g, h)
    ensures var (w, body) := (BothIn(p, setup, g, h, id), RequestOf(p, setup[g]));
      var a := AfterBody(p, LetIn(setup[g], body, id), [], Returned);
      var b := AfterBody(p, LetIn(setup[h], body, id), ops, Returned);
      Step(p, Step(p, w, DoBody(g, [], Returned)), DoBody(h, ops, Returned))
      == w.(parties := Pair(setup, g, h, a, b))
  {
    hide ReserveBodyOf, Pair, Step, AfterBody, Holding;
    var w, body := BothIn(p, setup, g, h, id), RequestOf(p, setup[g]);
    var a, b := LetIn(setup[g], body, id), LetIn(setup[h], body, id);
    var a' := AfterBody(p, a, [], Returned);
    var b' := AfterBody(p, b, ops, Returned);
    PairMoves(setup, g, h, a, b, a');
    PairMoves(setup, g, h, a', b, b');
    PartyMoves(p, w, DoBody(g, [], Returned));
    PartyMoves(p, w.(parties := Pair(setup, g, h, a', b)), DoBody(h, ops, Returned));
  }

  /** A commit and a release of one reservation may be under way together, from two guards that both
      behave. What keeps them apart is the server, which refuses to release a settled reservation and
      to commit a released one. */
  lemma CommitMayMeetRelease(p: Platform, setup: seq<Entrant>, g: nat, h: nat, id: string, reason: string)
    requires AlikePair(p, setup, g, h)
    ensures Contested(After(p, setup, PartWays(g, h, id, reason)), g, h, id)
  {
    hide ReserveBodyOf, Step, Initial, Exec, Pair, AfterBody, LetIn;
    var actions, body := PartWays(g, h, id, reason), RequestOf(p, setup[g]);
    BothAreIn(p, setup, g, h, id, actions);
    ExecNext(p, Initial(setup), actions, 6);
    ExecNext(p, Initial(setup), actions, 7);
    assert actions[..8] == actions;
    BothGo(p, setup, g, h, id, [Abort(reason)]);
    FirstReturns(p, setup[g], body, id);
    SecondAborts(p, setup[h], body, id, reason);
    var a := AfterBody(p, LetIn(setup[g], body, id), [], Returned);
    var b := AfterBody(p, LetIn(setup[h], body, id), [Abort(reason)], Returned);
    PairMoves(setup, g, h, a, b, a);
  }

  lemma ContestedIsShared(p: Platform, setup: seq<Entrant>, g: nat, h: nat, actions: seq<Action>, id: string)
    requires Contested(After(p, setup, actions), g, h, id)
    ensures RanOnOne(After(p, setup, actions), g, h)
  {
    hide Inv, After, LocalOk, SharedOk, ReserveBodyOf;
    Reachable(p, setup, actions);
    PartyFacts(p, After(p, setup, actions), g);
    PartyFacts(p, After(p, setup, actions), h);
  }

  /** When a commit meets a release: in some run exactly if tenant and reservation request of the two
      guards are the same. */
  lemma CommitMeetsReleaseIff(p: Platform, setup: seq<Entrant>, g: nat, h: nat)
    requires Payments(setup) && g < |setup| && h < |setup| && g != h
    ensures (exists actions, id :: Contested(After(p, setup, actions), g, h, id)) <==> Alike(p, setup[g], setup[h])
  {
    hide After, Alike, Contested;
    if Alike(p, setup[g], setup[h]) {
      CommitMayMeetRelease(p, setup, g, h, "r", "");
    }
    forall actions, id | Contested(After(p, setup, actions), g, h, id) ensures Alike(p, setup[g], setup[h]) {
      ContestedIsShared(p, setup, g, h, actions, id);
      RanMeansAlike(p, setup, g, h, actions);
    }
  }

  // ---- a payment is settled ----

  /** One guard asks and is granted `id`, its body returns, the server settles, and the guard hears of it. */
  function PayOnce(g: nat, id: string): seq<Action> {
    [Start(g), Handle(g, 0, S.Choice(false, id)), HearReserve(g, GrantOf(id)),
     DoBody(g, [], Returned), Handle(g, 1, S.Choice(false, id)), HearCommit(g, SUCCESS)]
  }

  const SUCCESS := Responded(Response(true, false, false, 200, None, None))

  function Charged(e: Entrant, body: ReserveBody, id: string, commit: CommitBody): Party {
    LetIn(e, body, id).(phase := Committing, calls := [Reserve(body), Commit(id, commit)])
  }

  /** The server once it has settled the one reservation. */
  function Settled(tenant: string, body: ReserveBody, id: string, commit: CommitBody): S.ServerState {
    var b := S.Bucket(tenant, body.idempotencyKey);
    S.ServerState(map[b := (body, id)], map[S.Bucket(tenant, commit.idempotencyKey) := (id, commit)], map[],
                  map[id := S.Reservation(b, body, S.SettledBy(commit))], [S.Settlement(b, id, commit.actual.amount)])
  }

  lemma Returns(p: Platform, e: Entrant, body: ReserveBody, id: string) returns (commit: CommitBody)
    requires ReserveBodyOf(p, e.config) == Ok(body)
    ensures commit.actual.amount == body.estimate.amount
    ensures AfterBody(p, LetIn(e, body, id), [], Returned) == Charged(e, body, id, commit)
  {
    hide IdempotencyKey, Dimensions;
    commit := CommitBodyOf(p, e.config.mandate, None, None).value;
  }

  lemma CommitServed(w: World, g: nat, e: Entrant, body: ReserveBody, id: string, commit: CommitBody)
    requires g < |w.parties| && w.parties[g] == Charged(e, body, id, commit) && w.server == Holding(e.tenant, body, id)
    ensures Served(w, g, 1, S.Choice(false, id))
         == w.(server := Settled(e.tenant, body, id, commit), acks := w.acks + {CommitAck(g)})
  {}

  lemma HearsSuccess(p: Platform, e: Entrant, body: ReserveBody, id: string, commit: CommitBody)
    ensures AfterHearCommit(p, Charged(e, body, id, commit), SUCCESS).state.committed
  {
    hide ReceiptOf;
  }

  function Alone(setup: seq<Entrant>, g: nat, a: Party): seq<Party>
    requires g < |setup|
  {
    Initial(setup).parties[g := a]
  }

  lemma AloneMoves(setup: seq<Entrant>, g: nat, a: Party, next: Party)
    requires g < |setup|
    ensures |Alone(setup, g, a)| == |setup| && Alone(setup, g, a)[g] == a
    ensures Alone(setup, g, a)[g := next] == Alone(setup, g, next)
    ensures Alone(setup, g, Unstarted(setup[g])) == Initial(setup).parties
  {}

  lemma ServedNext(p: Platform, w: World, a: Action)
    requires a.Handle? && a.g < |w.parties| && a.k < |w.parties[a.g].calls|
    ensures Step(p, w, a) == Served(w, a.g, a.k, a.choice)
  {
    hide Served;
  }

  /** One guard is granted a reservation, all others stay idle. */
  lemma OneIsIn(p: Platform, setup: seq<Entrant>, g: nat, id: string, body: ReserveBody)
    requires Payments(setup) && g < |setup| && ReserveBodyOf(p, setup[g].config) == Ok(body)
    ensures Exec(p, Initial(setup), PayOnce(g, id)[..3])
         == World(Holding(setup[g].tenant, body, id), Alone(setup, g, LetIn(setup[g], body, id)), {ReserveAck(g, id)})
  {
    hide ReserveBodyOf, Step, Exec, Served, AfterHearReserve, StartParty, Holding, Alone;
    var e, actions, w := setup[g], PayOnce(g, id), Initial(setup);
    NothingYet(p, w, actions);
    ExecNext(p, w, actions, 0);
    ExecNext(p, w, actions, 1);
    ExecNext(p, w, actions, 2);
    AloneMoves(setup, g, Unstarted(e), Asking(e, body));
    AloneMoves(setup, g, Asking(e, body), LetIn(e, body, id));
    Starts(p, e, body);
    PartyMoves(p, w, Start(g));
    var asking := w.(parties := Alone(setup, g, Asking(e, body)));
    FirstServed(asking, g, e, body, id);
    ServedNext(p, asking, Handle(g, 0, S.Choice(false, id)));
    Hears(e, body, id);
    PartyMoves(p, Served(asking, g, 0, S.Choice(false, id)), HearReserve(g, GrantOf(id)));
  }

  /** Then it charges, commits and hears of the success. */
  lemma OneIsThrough(p: Platform, setup: seq<Entrant>, g: nat, id: string, body: ReserveBody) returns (commit: CommitBody)
    requires Payments(setup) && g < |setup| && ReserveBodyOf(p, setup[g].config) == Ok(body)
    ensures commit.actual.amount == body.estimate.amount
    ensures var w := After(p, setup, PayOnce(g, id));
      && w.server == Settled(setup[g].tenant, body, id, commit)
      && w.parties == Alone(setup, g, AfterHearCommit(p, Charged(setup[g], body, id, commit), SUCCESS))
  {
    hide ReserveBodyOf, Step, Exec, Served, AfterHearCommit, AfterBody, Initial, Holding, Alone, Settled;
    var e, actions := setup[g], PayOnce(g, id);
    OneIsIn(p, setup, g, id, body);
    var w := Exec(p, Initial(setup), actions[..3]);
    ExecNext(p, Initial(setup), actions, 3);
    ExecNext(p, Initial(setup), actions, 4);
    ExecNext(p, Initial(setup), actions, 5);
    assert actions[..6] == actions;
    commit := Returns(p, e, body, id);
    var charged := Charged(e, body, id, commit);
    AloneMoves(setup, g, LetIn(e, body, id), charged);
    AloneMoves(setup, g, charged, AfterHearCommit(p, charged, SUCCESS));
    PartyMoves(p, w, DoBody(g, [], Returned));
    var sent := w.(parties := Alone(setup, g, charged));
    CommitServed(sent, g, e, body, id, commit);
    ServedNext(p, sent, Handle(g, 1, S.Choice(false, id)));
    PartyMoves(p, Served(sent, g, 1, S.Choice(false, id)), HearCommit(g, SUCCESS));
  }

  /** A run that ends with a commit reported, the reservation settled, and the mandate's amount paid. */
  lemma PaymentGoesThrough(p: Platform, setup: seq<Entrant>, g: nat, id: string)
    requires Payments(setup) && g < |setup| && ReserveBodyOf(p, setup[g].config).Ok?
    ensures var w := After(p, setup, PayOnce(g, id));
      && |w.parties| == |setup| && w.parties[g].state.committed
      && id in w.server.reservations && w.server.reservations[id].status.SettledBy?
      && S.Total(w.server.ledger, BucketOf(p, w.parties[g])) == ReserveBodyOf(p, setup[g].config).value.estimate.amount
  {
    hide ReserveBodyOf, After, AfterHearCommit, Alone, BucketOf, S.Total;
    var body := ReserveBodyOf(p, setup[g].config).value;
    var commit := OneIsThrough(p, setup, g, id, body);
    var charged := Charged(setup[g], body, id, commit);
    AloneMoves(setup, g, AfterHearCommit(p, charged, SUCCESS), charged);
    HearsSuccess(p, setup[g], body, id, commit);
    SettledOnce(p, setup, PayOnce(g, id), g);
    ReportsAreTrue(p, setup, PayOnce(g, id), g);
  }

  /** A guard reports a commit in some run exactly if its reservation request can be built. */
  lemma CommitsIff(p: Platform, setup: seq<Entrant>, g: nat)
    requires Payments(setup) && g < |setup|
    ensures (exists actions :: var w := After(p, setup, actions); g < |w.parties| && w.parties[g].state.committed)
       <==> ReserveBodyOf(p, setup[g].config).Ok?
  {
    hide After, ReserveBodyOf, S.StatusIs;
    if ReserveBodyOf(p, setup[g].config).Ok? {
      PaymentGoesThrough(p, setup, g, "r");
      var w := After(p, setup, PayOnce(g, "r"));
      assert g < |w.parties| && w.parties[g].state.committed;
    }
    forall actions | var w := After(p, setup, actions); g < |w.parties| && w.parties[g].state.committed
      ensures ReserveBodyOf(p, setup[g].config).Ok?
    {
      ReportsAreTrue(p, setup, actions, g);
      RanMeansAlike(p, setup, g, g, actions);
    }
  }
}
