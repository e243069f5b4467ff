/** The invariant of the protocol over every interleaving, and what follows from it. */
module Interleavings {
  import opened Basics
  import opened Mandates
  import opened Amounts
  import opened Keys
  import opened Payloads
  import opened Lifecycle
  import opened GuardRuns
  import opened Protocol
  import opened Parties
  import S = Server

  // ---- what ties a guard to the server ----

  /** The idempotency bucket that a guard's reservation request falls into. */
  function BucketOf(p: Platform, party: Party): S.Bucket {
    S.Bucket(party.tenant, IdempotencyKey(p, party.config.mandate, RESERVE, None))
  }

  /** The server has this reservation on file for exactly the request of this guard. */
  predicate Holds(p: Platform, s: S.ServerState, party: Party, id: string) {
    var b := BucketOf(p, party);
    b in s.reserves && Ok(s.reserves[b].0) == ReserveBodyOf(p, party.config) && s.reserves[b].1 == id
  }

  /** The very commit this guard sent has settled its reservation. */
  predicate SettledFor(s: S.ServerState, party: Party) {
    |party.calls| > 1 && party.calls[1].Commit? && S.StatusIs(s, party.calls[1].id, S.SettledBy(party.calls[1].commit))
  }

  predicate ReleasedFor(s: S.ServerState, party: Party) {
    && |party.calls| > 1 && party.calls[|party.calls| - 1].Release?
    && S.StatusIs(s, party.calls[|party.calls| - 1].id, S.Released)
  }

  predicate SharedOk(p: Platform, s: S.ServerState, acks: set<Ack>, g: nat, party: Party) {
    && (party.state.reservationId.Some? ==> Holds(p, s, party, party.state.reservationId.value))
    && (party.state.committed ==> SettledFor(s, party))
    && (CommitAck(g) in acks ==> SettledFor(s, party))
    && (ReleaseAck(g) in acks ==> ReleasedFor(s, party))
    && (ReportsReleased(party) ==> ReleaseAck(g) in acks)
    && (Succeeded(party.log.replies.release) ==> ReleaseAck(g) in acks)
  }

  ghost predicate GrantsTrue(p: Platform, w: World) {
    forall g, id :: 0 <= g < |w.parties| && ReserveAck(g, id) in w.acks ==> Holds(p, w.server, w.parties[g], id)
  }

  ghost predicate PartiesOk(p: Platform, w: World) {
    forall g :: 0 <= g < |w.parties| ==>
      LocalOk(p, w.parties[g]) && SharedOk(p, w.server, w.acks, g, w.parties[g])
  }

  ghost predicate Inv(p: Platform, w: World) {
    S.ServerOk(w.server) && PartiesOk(p, w) && GrantsTrue(p, w)
  }

  // ---- the invariant is kept by the guards ----

  lemma HonestMoveKeepsShared(p: Platform, w: World, a: Action, next: Party)
    requires !a.Expire? && a.g < |w.parties|
    requires Inv(p, w) && Plausible(w, a) && HonestMove(w.parties[a.g], a, next)
    ensures SharedOk(p, w.server, w.acks, a.g, next)
  {
    hide ReserveBodyOf, IdempotencyKey, LocalOk, Classify, S.ServerOk, S.StatusIs;
    var party := w.parties[a.g];
    assert SharedOk(p, w.server, w.acks, a.g, party);
    assert BucketOf(p, next) == BucketOf(p, party);
    if |party.calls| > 1 {
      assert next.calls[1] == party.calls[1];
    }
  }

  lemma PartyStepKeeps(p: Platform, w: World, a: Action)
    requires Inv(p, w) && !a.Expire? && a.g < |w.parties|
    requires Ready(w.parties[a.g], a) && Plausible(w, a)
    ensures Inv(p, w.(parties := w.parties[a.g := Moved(p, w.parties[a.g], a)]))
  {
    hide ReserveBodyOf, IdempotencyKey, LocalOk, Moved, Ready, Plausible, S.ServerOk, SharedOk;
    var party, next := w.parties[a.g], Moved(p, w.parties[a.g], a);
    MoveIsLocal(p, party, a);
    MoveIsHonest(p, party, a);
    HonestMoveKeepsShared(p, w, a, next);
    var w' := w.(parties := w.parties[a.g := next]);
    assert PartiesOk(p, w');
    forall g, id | 0 <= g < |w'.parties| && ReserveAck(g, id) in w'.acks ensures Holds(p, w'.server, w'.parties[g], id) {
      assert Holds(p, w.server, w.parties[g], id);
    }
  }

  // ---- the invariant is kept by the server ----

  /** Whatever the server does, what it has told stays true. */
  lemma GrowthKeepsShared(p: Platform, s: S.ServerState, s': S.ServerState, acks: set<Ack>, g: nat, party: Party)
    requires S.Grows(s, s') && SharedOk(p, s, acks, g, party)
    ensures SharedOk(p, s', acks, g, party)
  {
    hide ReserveBodyOf, IdempotencyKey;
  }

  lemma GrowthKeepsParties(p: Platform, w: World, s: S.ServerState)
    requires S.Grows(w.server, s) && PartiesOk(p, w) && GrantsTrue(p, w)
    ensures PartiesOk(p, w.(server := s)) && GrantsTrue(p, w.(server := s))
  {
    hide ReserveBodyOf, IdempotencyKey, LocalOk, SharedOk;
    forall g | 0 <= g < |w.parties| ensures SharedOk(p, s, w.acks, g, w.parties[g]) {
      GrowthKeepsShared(p, w.server, s, w.acks, g, w.parties[g]);
    }
  }

  /** One more acknowledgement, which is true. */
  predicate TrueAck(p: Platform, s: S.ServerState, parties: seq<Party>, ack: Ack) {
    ack.g < |parties| &&
    match ack
    case ReserveAck(g, id) => Holds(p, s, parties[g], id)
    case CommitAck(g) => SettledFor(s, parties[g])
    case ReleaseAck(g) => ReleasedFor(s, parties[g])
  }

  lemma AckKeeps(p: Platform, w: World, ack: Ack)
    requires Inv(p, w) && TrueAck(p, w.server, w.parties, ack)
    ensures Inv(p, w.(acks := w.acks + {ack}))
  {
    hide ReserveBodyOf, IdempotencyKey, LocalOk, Holds, SettledFor, ReleasedFor, S.ServerOk;
    var w' := w.(acks := w.acks + {ack});
    forall g | 0 <= g < |w'.parties| ensures SharedOk(p, w'.server, w'.acks, g, w'.parties[g]) {
      assert SharedOk(p, w.server, w.acks, g, w.parties[g]);
    }
  }

  lemma ServeReserve(p: Platform, w: World, g: nat, k: nat, choice: S.Choice)
    requires Inv(p, w) && g < |w.parties| && k < |w.parties[g].calls| && w.parties[g].calls[k].Reserve?
    ensures Inv(p, Served(w, g, k, choice)) && S.Grows(w.server, Served(w, g, k, choice).server)
  {
    hide IdempotencyKey, LocalOk, S.ServerOk, S.Grows, S.HandleReserve, AmountOf, PartiesOk, GrantsTrue;
    var party := w.parties[g];
    var body := party.calls[k].reserve;
    PartyFacts(p, w, g);
    var (s, granted) := S.HandleReserve(w.server, party.tenant, body, choice);
    S.ReserveKeeps(w.server, party.tenant, body, choice);
    GrowthKeepsParties(p, w, s);
    if granted.Some? {
      AckKeeps(p, w.(server := s), ReserveAck(g, granted.value));
    } else {
      assert w.acks + {} == w.acks;
    }
  }

  /** What the invariant says about the requests of one guard. */
  lemma PartyFacts(p: Platform, w: World, g: nat)
    requires Inv(p, w) && g < |w.parties|
    ensures CallsOk(p, w.parties[g]) && LocalOk(p, w.parties[g]) && SharedOk(p, w.server, w.acks, g, w.parties[g])
  {
    hide ReserveBodyOf, IdempotencyKey, LocalOk, SharedOk, S.ServerOk, CallsOk;
    CallsAreOk(p, w.parties[g]);
  }

  lemma ServeCommit(p: Platform, w: World, g: nat, k: nat, choice: S.Choice)
    requires Inv(p, w) && g < |w.parties| && k < |w.parties[g].calls| && w.parties[g].calls[k].Commit?
    ensures Inv(p, Served(w, g, k, choice)) && S.Grows(w.server, Served(w, g, k, choice).server)
  {
    hide IdempotencyKey, ReserveBodyOf, LocalOk, S.ServerOk, S.Grows, S.StatusIs, S.HandleCommit;
    hide PartiesOk, GrantsTrue, SharedOk;
    var party := w.parties[g];
    var call := party.calls[k];
    PartyFacts(p, w, g);
    var (s, done) := S.HandleCommit(w.server, party.tenant, call.id, call.commit, choice);
    S.CommitKeeps(w.server, party.tenant, call.id, call.commit, choice);
    GrowthKeepsParties(p, w, s);
    if done {
      assert k == 1;
      AckKeeps(p, w.(server := s), CommitAck(g));
    } else {
      assert w.acks + {} == w.acks;
    }
  }

  lemma ServeRelease(p: Platform, w: World, g: nat, k: nat, choice: S.Choice)
    requires Inv(p, w) && g < |w.parties| && k < |w.parties[g].calls| && w.parties[g].calls[k].Release?
    ensures Inv(p, Served(w, g, k, choice)) && S.Grows(w.server, Served(w, g, k, choice).server)
  {
    hide IdempotencyKey, ReserveBodyOf, LocalOk, S.ServerOk, S.Grows, S.StatusIs, S.HandleRelease;
    hide PartiesOk, GrantsTrue, SharedOk;
    var party := w.parties[g];
    var call := party.calls[k];
    PartyFacts(p, w, g);
    var (s, done) := S.HandleRelease(w.server, party.tenant, call.id, call.release, choice);
    S.ReleaseKeeps(w.server, party.tenant, call.id, call.release, choice);
    GrowthKeepsParties(p, w, s);
    if done {
      assert k == |party.calls| - 1 && k > 0;
      AckKeeps(p, w.(server := s), ReleaseAck(g));
    } else {
      assert w.acks + {} == w.acks;
    }
  }

  // ---- every reachable world ----

  /** Who takes part never changes. */
  predicate SameEntrants(w: World, w': World) {
    && |w'.parties| == |w.parties|
    && (forall g :: 0 <= g < |w.parties| ==>
          w'.parties[g].tenant == w.parties[g].tenant && w'.parties[g].config == w.parties[g].config)
  }

  lemma StepKeeps(p: Platform, w: World, a: Action)
    requires Inv(p, w)
    ensures Inv(p, Step(p, w, a)) && S.Grows(w.server, Step(p, w, a).server) && SameEntrants(w, Step(p, w, a))
  {
    hide Inv, S.Grows, Plausible, Moved, S.HandleExpiry, Served, HonestMove;
    if a.Expire? {
      ExpireKeeps(p, w, a.id);
    } else if a.g >= |w.parties| || !Ready(w.parties[a.g], a) || !Plausible(w, a) {
      S.GrowsReflexive(w.server);
    } else if a.Handle? {
      HandleKeeps(p, w, a.g, a.k, a.choice);
    } else {
      PartyStepKeeps(p, w, a);
      S.GrowsReflexive(w.server);
      MovedEntrant(p, w, a);
    }
  }

  lemma MovedEntrant(p: Platform, w: World, a: Action)
    requires Inv(p, w) && !a.Expire? && a.g < |w.parties| && Ready(w.parties[a.g], a)
    ensures SameEntrants(w, w.(parties := w.parties[a.g := Moved(p, w.parties[a.g], a)]))
  {
    hide LocalOk, Moved, SharedOk, S.ServerOk, Ready;
    MoveIsHonest(p, w.parties[a.g], a);
  }

  lemma ExpireKeeps(p: Platform, w: World, id: string)
    requires Inv(p, w)
    ensures var w' := w.(server := S.HandleExpiry(w.server, id));
      Inv(p, w') && S.Grows(w.server, w'.server)
  {
    hide S.ServerOk, PartiesOk, GrantsTrue, S.Grows, S.HandleExpiry;
    S.ExpiryKeeps(w.server, id);
    GrowthKeepsParties(p, w, S.HandleExpiry(w.server, id));
  }

  lemma HandleKeeps(p: Platform, w: World, g: nat, k: nat, choice: S.Choice)
    requires Inv(p, w) && g < |w.parties| && k < |w.parties[g].calls|
    ensures Inv(p, Served(w, g, k, choice)) && S.Grows(w.server, Served(w, g, k, choice).server)
    ensures Served(w, g, k, choice).parties == w.parties
  {
    hide Inv, S.Grows, S.HandleReserve, S.HandleCommit, S.HandleRelease;
    match w.parties[g].calls[k]
    case Reserve(_) => ServeReserve(p, w, g, k, choice);
    case Commit(_, _) => ServeCommit(p, w, g, k, choice);
    case Release(_, _) => ServeRelease(p, w, g, k, choice);
  }

  lemma {:induction false} ExecKeeps(p: Platform, w: World, actions: seq<Action>)
    requires Inv(p, w)
    ensures Inv(p, Exec(p, w, actions)) && S.Grows(w.server, Exec(p, w, actions).server)
    ensures SameEntrants(w, Exec(p, w, actions))
  {
    hide Inv, S.Grows, Step;
    if |actions| == 0 {
      S.GrowsReflexive(w.server);
    } else {
      var mid := Exec(p, w, actions[..|actions| - 1]);
      ExecKeeps(p, w, actions[..|actions| - 1]);
      StepKeeps(p, mid, actions[|actions| - 1]);
      S.GrowsTransitive(w.server, mid.server, Exec(p, w, actions).server);
    }
  }

  lemma InitialOk(p: Platform, setup: seq<Entrant>)
    ensures Inv(p, Initial(setup))
  {
    hide ReserveBodyOf;
  }

  /** The invariant holds in every world that any run of any guards can reach. */
  lemma Reachable(p: Platform, setup: seq<Entrant>, actions: seq<Action>)
    ensures Inv(p, After(p, setup, actions))
    ensures |After(p, setup, actions).parties| == |setup|
    ensures forall g :: 0 <= g < |setup| ==>
      var party := After(p, setup, actions).parties[g];
      party.tenant == setup[g].tenant && party.config == setup[g].config
  {
    hide Inv, Exec;
    InitialOk(p, setup);
    ExecKeeps(p, Initial(setup), actions);
  }
}
