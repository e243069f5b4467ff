/** The way back from the server to the guards: nothing is on file, settled or released that no guard
    asked for. */
module Provenance {
  import opened Basics
  import opened Mandates
  import opened Amounts
  import opened Keys
  import opened Payloads
  import opened Lifecycle
  import opened GuardRuns
  import opened Protocol
  import opened Parties
  import opened Interleavings
  import opened Verdicts
  import S = Server

  /** A guard of this bucket has put this request on the wire. */
  predicate Sent(p: Platform, party: Party, bucket: S.Bucket, call: Call) {
    BucketOf(p, party) == bucket && call in party.calls
  }

  ghost predicate SomeSent(p: Platform, parties: seq<Party>, bucket: S.Bucket, call: Call) {
    exists g :: 0 <= g < |parties| && Sent(p, parties[g], bucket, call)
  }

  ghost predicate SomeReleased(p: Platform, parties: seq<Party>, bucket: S.Bucket, id: string) {
    exists body: ReleaseBody :: SomeSent(p, parties, bucket, Release(id, body))
  }

  /** A reservation is what some guard of its bucket asked for, and so is its final status. */
  ghost predicate Asked(p: Platform, parties: seq<Party>, id: string, r: S.Reservation) {
    && SomeSent(p, parties, r.bucket, Reserve(r.body))
    && (r.status.SettledBy? ==> SomeSent(p, parties, r.bucket, Commit(id, r.status.commit)))
    && (r.status.Released? ==> SomeReleased(p, parties, r.bucket, id))
  }

  ghost predicate AllAsked(p: Platform, s: S.ServerState, parties: seq<Party>) {
    forall id :: id in s.reservations ==> Asked(p, parties, id, s.reservations[id])
  }

  // ---- guards only add requests ----

  lemma SentIsKept(p: Platform, parties: seq<Party>, g: nat, next: Party, bucket: S.Bucket, call: Call)
    requires g < |parties| && SomeSent(p, parties, bucket, call)
    requires next.tenant == parties[g].tenant && next.config == parties[g].config && parties[g].calls <= next.calls
    ensures SomeSent(p, parties[g := next], bucket, call)
  {
    hide IdempotencyKey;
    var h :| 0 <= h < |parties| && Sent(p, parties[h], bucket, call);
    assert Sent(p, parties[g := next][h], bucket, call);
  }

  lemma AskedIsKept(p: Platform, parties: seq<Party>, g: nat, next: Party, id: string, r: S.Reservation)
    requires g < |parties| && Asked(p, parties, id, r)
    requires next.tenant == parties[g].tenant && next.config == parties[g].config && parties[g].calls <= next.calls
    ensures Asked(p, parties[g := next], id, r)
  {
    hide SomeSent;
    SentIsKept(p, parties, g, next, r.bucket, Reserve(r.body));
    if r.status.SettledBy? {
      SentIsKept(p, parties, g, next, r.bucket, Commit(id, r.status.commit));
    }
    if r.status.Released? {
      var body: ReleaseBody :| SomeSent(p, parties, r.bucket, Release(id, body));
      SentIsKept(p, parties, g, next, r.bucket, Release(id, body));
    }
  }

  lemma MoveKeepsAsked(p: Platform, w: World, a: Action)
    requires Inv(p, w) && AllAsked(p, w.server, w.parties)
    requires !a.Expire? && a.g < |w.parties| && Ready(w.parties[a.g], a)
    ensures AllAsked(p, w.server, w.parties[a.g := Moved(p, w.parties[a.g], a)])
  {
    hide LocalOk, Moved, SharedOk, S.ServerOk, Ready, Asked;
    var next := Moved(p, w.parties[a.g], a);
    MoveIsHonest(p, w.parties[a.g], a);
    forall id | id in w.server.reservations ensures Asked(p, w.parties[a.g := next], id, w.server.reservations[id]) {
      AskedIsKept(p, w.parties, a.g, next, id, w.server.reservations[id]);
    }
  }

  // ---- the server only does what was asked ----

  /** One reservation is new or has a new status, and that was asked for. */
  lemma OneChange(p: Platform, s: S.ServerState, s': S.ServerState, parties: seq<Party>, id: string)
    requires AllAsked(p, s, parties)
    requires forall other :: other in s'.reservations && other != id ==>
      other in s.reservations && s'.reservations[other] == s.reservations[other]
    requires id in s'.reservations ==> Asked(p, parties, id, s'.reservations[id])
    ensures AllAsked(p, s', parties)
  {
    hide Asked;
  }

  lemma ReserveWasAsked(p: Platform, w: World, g: nat, k: nat, choice: S.Choice)
    requires Inv(p, w) && AllAsked(p, w.server, w.parties)
    requires g < |w.parties| && k < |w.parties[g].calls| && w.parties[g].calls[k].Reserve?
    ensures AllAsked(p, Served(w, g, k, choice).server, w.parties)
  {
    hide LocalOk, SharedOk, S.ServerOk, AmountOf, IdempotencyKey, SomeSent;
    var party := w.parties[g];
    var body := party.calls[k].reserve;
    PartyFacts(p, w, g);
    var s' := Served(w, g, k, choice).server;
    if s' != w.server {
      var b := S.Bucket(party.tenant, body.idempotencyKey);
      OwnBucket(p, party, body);
      assert SomeSent(p, w.parties, b, Reserve(body)) by { SentByOne(p, w.parties, g, b, party.calls[k]); }
      OneChange(p, w.server, s', w.parties, choice.id);
    }
  }

  lemma SentByOne(p: Platform, parties: seq<Party>, g: nat, bucket: S.Bucket, call: Call)
    requires g < |parties| && BucketOf(p, parties[g]) == bucket && call in parties[g].calls
    ensures SomeSent(p, parties, bucket, call)
  {
    hide BucketOf;
    assert Sent(p, parties[g], bucket, call);
  }

  lemma OwnBucket(p: Platform, party: Party, body: ReserveBody)
    requires Ok(body) == ReserveBodyOf(p, party.config)
    ensures S.Bucket(party.tenant, body.idempotencyKey) == BucketOf(p, party)
  {
    hide IdempotencyKey, AmountOf;
  }

  /** The reservation that a guard's later requests are about belongs to its own bucket. */
  lemma RequestIsOwn(p: Platform, w: World, g: nat, k: nat)
    requires Inv(p, w) && g < |w.parties| && k < |w.parties[g].calls| && !w.parties[g].calls[k].Reserve?
    ensures var id := w.parties[g].calls[k].id;
      id in w.server.reservations && w.server.reservations[id].bucket == BucketOf(p, w.parties[g])
  {
    hide LocalOk, S.ServerOk, ReserveBodyOf, BucketOf, Holds, GrantsTrue, PartiesOk;
    PartyFacts(p, w, g);
    HeldBucket(p, w.server, w.parties[g], w.parties[g].calls[k].id);
  }

  lemma CommitWasAsked(p: Platform, w: World, g: nat, k: nat, choice: S.Choice)
    requires Inv(p, w) && AllAsked(p, w.server, w.parties)
    requires g < |w.parties| && k < |w.parties[g].calls| && w.parties[g].calls[k].Commit?
    ensures AllAsked(p, Served(w, g, k, choice).server, w.parties)
  {
    hide Inv, SomeSent, BucketOf;
    var call := w.parties[g].calls[k];
    var s' := Served(w, g, k, choice).server;
    if s' != w.server {
      RequestIsOwn(p, w, g, k);
      SentByOne(p, w.parties, g, w.server.reservations[call.id].bucket, call);
      assert Asked(p, w.parties, call.id, w.server.reservations[call.id]);
      OneChange(p, w.server, s', w.parties, call.id);
    }
  }

  lemma ReleaseWasAsked(p: Platform, w: World, g: nat, k: nat, choice: S.Choice)
    requires Inv(p, w) && AllAsked(p, w.server, w.parties)
    requires g < |w.parties| && k < |w.parties[g].calls| && w.parties[g].calls[k].Release?
    ensures AllAsked(p, Served(w, g, k, choice).server, w.parties)
  {
    hide Inv, SomeSent, BucketOf;
    var call := w.parties[g].calls[k];
    var s' := Served(w, g, k, choice).server;
    if s' != w.server {
      RequestIsOwn(p, w, g, k);
      SentByOne(p, w.parties, g, w.server.reservations[call.id].bucket, call);
      assert SomeReleased(p, w.parties, w.server.reservations[call.id].bucket, call.id);
      assert Asked(p, w.parties, call.id, w.server.reservations[call.id]);
      OneChange(p, w.server, s', w.parties, call.id);
    }
  }

  lemma ExpiryNeedsNoRequest(p: Platform, s: S.ServerState, parties: seq<Party>, id: string)
    requires AllAsked(p, s, parties)
    ensures AllAsked(p, S.HandleExpiry(s, id), parties)
  {
    hide SomeSent, SomeReleased;
    if S.IsActive(s, id) {
      assert Asked(p, parties, id, s.reservations[id]);
      OneChange(p, s, S.HandleExpiry(s, id), parties, id);
    }
  }

  lemma StepKeepsAsked(p: Platform, w: World, a: Action)
    requires Inv(p, w) && AllAsked(p, w.server, w.parties)
    ensures AllAsked(p, Step(p, w, a).server, Step(p, w, a).parties)
  {
    hide Inv, AllAsked, Plausible, Moved, S.HandleExpiry, S.HandleReserve, S.HandleCommit, S.HandleRelease;
    if a.Expire? {
      ExpiryNeedsNoRequest(p, w.server, w.parties, a.id);
    } else if a.g >= |w.parties| || !Ready(w.parties[a.g], a) || !Plausible(w, a) {
    } else if a.Handle? {
      match w.parties[a.g].calls[a.k]
      case Reserve(_) => ReserveWasAsked(p, w, a.g, a.k, a.choice);
      case Commit(_, _) => CommitWasAsked(p, w, a.g, a.k, a.choice);
      case Release(_, _) => ReleaseWasAsked(p, w, a.g, a.k, a.choice);
    } else {
      MoveKeepsAsked(p, w, a);
    }
  }

  lemma {:induction false} ExecKeepsAsked(p: Platform, w: World, actions: seq<Action>)
    requires Inv(p, w) && AllAsked(p, w.server, w.parties)
    ensures AllAsked(p, Exec(p, w, actions).server, Exec(p, w, actions).parties)
  {
    hide Inv, AllAsked, Step;
    if |actions| > 0 {
      ExecKeeps(p, w, actions[..|actions| - 1]);
      ExecKeepsAsked(p, w, actions[..|actions| - 1]);
      StepKeepsAsked(p, Exec(p, w, actions[..|actions| - 1]), actions[|actions| - 1]);
    }
  }

  // ---- what follows ----

  /** Nothing happens unasked: every reservation was requested by a guard of its bucket in those very
      words, every settled one is settled by a commit that a guard of the bucket sent for it, and every
      released one was to be released by such a guard. */
  lemma NothingUnasked(p: Platform, setup: seq<Entrant>, actions: seq<Action>, id: string)
    requires Payments(setup)
    requires id in After(p, setup, actions).server.reservations
    ensures var w := After(p, setup, actions);
      Asked(p, w.parties, id, w.server.reservations[id])
  {
    hide Inv, Asked, Exec;
    InitialOk(p, setup);
    ExecKeepsAsked(p, Initial(setup), actions);
  }

  /** The guard has not asked for money: it is not on its way out yet, it was refused, or its body raised
      or aborted. */
  ghost predicate HoldsBack(party: Party) {
    match party.phase
    case Idle => true
    case Reserving => true
    case InBody => true
    case Turned(_) => true
    case Committing => false
    case Releasing(cause) => !cause.CommitRejected?
    case Left(_) => party.log.end.RaisedInBody? || Aborts(party.log.ops)
  }

  lemma HoldingBackSendsNoCommit(p: Platform, party: Party)
    requires LocalOk(p, party) && HoldsBack(party)
    ensures forall call :: call in party.calls ==> !call.Commit?
  {
    hide ReserveBodyOf, ApplyOps, ExitRun, Aborts, ReleaseBodyOf, CommitBodyOf;
    match party.phase
    case Turned(_) => RunCommits(p, party);
    case Left(_) => RunCommits(p, party);
    case Releasing(_) => ExitingHolds(p, party);
    case InBody => EnteredHolds(p, party);
    case _ =>
  }

  lemma RunCommits(p: Platform, party: Party)
    requires LocalOk(p, party) && HoldsBack(party) && (party.phase.Turned? || party.phase.Left?)
    ensures forall call :: call in party.calls ==> !call.Commit?
  {
    hide RunOnce, ReserveBodyOf, Aborts, ReadsAsRejection, Granted;
    var log := party.log;
    CallLanguage(p, party.config, log.ops, log.end, log.replies);
    var kinds := Kinds(party.calls);
    assert CommitKind !in [ReserveKind] && CommitKind !in [ReserveKind, ReleaseKind];
    forall call | call in party.calls ensures !call.Commit? {
      var k :| 0 <= k < |party.calls| && party.calls[k] == call;
      assert kinds[k] == KindOf(call);
    }
  }

  /** Money moves only where a guard asked for it: if every guard of a bucket was refused, raised, aborted
      or is not on its way out yet, nothing was settled for that bucket. */
  lemma NoMoneyWithoutCommit(p: Platform, setup: seq<Entrant>, actions: seq<Action>, bucket: S.Bucket)
    requires Payments(setup)
    requires var w := After(p, setup, actions);
      forall g :: 0 <= g < |w.parties| && BucketOf(p, w.parties[g]) == bucket ==> HoldsBack(w.parties[g])
    ensures S.Total(After(p, setup, actions).server.ledger, bucket) == 0
  {
    hide After, LocalOk, SharedOk, BucketOf, HoldsBack, S.CacheMatches, S.RepliesTrue, GrantsTrue;
    var w := After(p, setup, actions);
    Reachable(p, setup, actions);
    forall i | 0 <= i < |w.server.ledger| ensures w.server.ledger[i].bucket != bucket {
      var e := w.server.ledger[i];
      assert S.EntryTrue(w.server, e);
      if e.bucket == bucket {
        NothingUnasked(p, setup, actions, e.id);
        var commit := Commit(e.id, w.server.reservations[e.id].status.commit);
        var g :| 0 <= g < |w.parties| && Sent(p, w.parties[g], bucket, commit);
        HoldingBackSendsNoCommit(p, w.parties[g]);
      }
    }
    S.TotalOfNone(w.server.ledger, bucket);
  }

  // ---- no budget is left behind an answered guard ----

  /** The last request of the guard was answered by a success. */
  predicate LastAnswered(party: Party) {
    && |party.calls| > 1
    && match party.calls[|party.calls| - 1]
       case Reserve(_) => false
       case Commit(_, _) => Succeeded(party.log.replies.commit)
       case Release(_, _) => Succeeded(party.log.replies.release)
  }

  lemma AnsweredCommit(p: Platform, party: Party)
    requires LocalOk(p, party) && party.phase.Left? && LastAnswered(party)
    requires party.calls[|party.calls| - 1].Commit?
    ensures party.state.committed
  {
    hide RunOnce, ReserveBodyOf, Aborts, ReadsAsRejection, Truthful, Succeeded, Granted;
    var log, kinds := party.log, Kinds(party.calls);
    CallLanguage(p, party.config, log.ops, log.end, log.replies);
    NoSilentLoss(p, party.config, log.ops, log.end, log.replies);
    assert kinds[|kinds| - 1] == CommitKind;
  }

  /** What a guard that has left with its last request acknowledged leaves behind is no longer active. */
  lemma AnsweredIsOver(p: Platform, w: World, g: nat)
    requires Inv(p, w) && g < |w.parties| && w.parties[g].phase.Left? && LastAnswered(w.parties[g])
    ensures var held := w.parties[g].state.reservationId;
      held.Some? && held.value in w.server.reservations && !S.IsActive(w.server, held.value)
  {
    hide Inv, LocalOk, ReserveBodyOf, Holds, Succeeded;
    PartyFacts(p, w, g);
    if w.parties[g].calls[|w.parties[g].calls| - 1].Commit? {
      AnsweredCommit(p, w.parties[g]);
    }
  }

  /** The guard has asked for a reservation and nobody has told it that it is over: it is under way, was
      turned away by the answer to its request, or got no success for its last request. */
  predicate StillOpen(party: Party) {
    match party.phase
    case Idle => false
    case Turned(entry) => !entry.MandateRejected?
    case Left(_) => !LastAnswered(party)
    case _ => true
  }

  lemma AskedStaysOpen(p: Platform, party: Party, call: Call)
    requires LocalOk(p, party) && call in party.calls && !(party.phase.Left? && LastAnswered(party))
    ensures StillOpen(party)
  {
    hide AmountOf, ExitRun, ApplyOps, LastAnswered;
  }

  /** No budget is stranded behind an acknowledgement: as long as a reservation is active, some guard of
      its bucket that asked for it in those words still has it open, and every guard of the bucket that
      has left was not given a success for its last request. */
  lemma NoBudgetStranded(p: Platform, setup: seq<Entrant>, actions: seq<Action>, id: string)
    requires Payments(setup) && S.IsActive(After(p, setup, actions).server, id)
    ensures var w := After(p, setup, actions);
      var r := w.server.reservations[id];
      && (exists g :: 0 <= g < |w.parties| && Sent(p, w.parties[g], r.bucket, Reserve(r.body)) && StillOpen(w.parties[g]))
      && (forall g :: 0 <= g < |w.parties| && BucketOf(p, w.parties[g]) == r.bucket ==>
            !(w.parties[g].phase.Left? && LastAnswered(w.parties[g])))
  {
    hide After, Inv, LocalOk, BucketOf, StillOpen, LastAnswered;
    var w := After(p, setup, actions);
    var r := w.server.reservations[id];
    Reachable(p, setup, actions);
    forall g | 0 <= g < |w.parties| && BucketOf(p, w.parties[g]) == r.bucket
      ensures !(w.parties[g].phase.Left? && LastAnswered(w.parties[g]))
    {
      if w.parties[g].phase.Left? && LastAnswered(w.parties[g]) {
        AnsweredIsOver(p, w, g);
        RunningHolds(p, w, g);
        HeldInBucket(p, w, g);
        OneReservationPerBucket(p, setup, actions, id, w.parties[g].state.reservationId.value);
      }
    }
    NothingUnasked(p, setup, actions, id);
    var g :| 0 <= g < |w.parties| && Sent(p, w.parties[g], r.bucket, Reserve(r.body));
    PartyFacts(p, w, g);
    AskedStaysOpen(p, w.parties[g], Reserve(r.body));
  }

  lemma HeldInBucket(p: Platform, w: World, g: nat)
    requires Inv(p, w) && g < |w.parties| && BodyRan(w.parties[g])
    ensures var id := w.parties[g].state.reservationId.value;
      id in w.server.reservations && w.server.reservations[id].bucket == BucketOf(p, w.parties[g])
  {
    hide BucketOf, Holds, S.ServerOk, PartiesOk, GrantsTrue;
    RunningHolds(p, w, g);
    HeldBucket(p, w.server, w.parties[g], w.parties[g].state.reservationId.value);
  }

  /** Who may leave budget behind is told so: if a guard got no success for its last request although its
      body returned and did not abort, then its caller gets commit-uncertain, or commit-failed with
      `released` false, or the cancellation. Only an abort and an exception of the body keep it quiet. */
  lemma StrandingIsTold(p: Platform, setup: seq<Entrant>, actions: seq<Action>, g: nat)
    requires Payments(setup) && g < |setup|
    ensures var w := After(p, setup, actions);
      |w.parties| == |setup|
      && var party := w.parties[g];
         (party.phase.Left? && !LastAnswered(party) && party.log.end.Returned? && !Aborts(party.log.ops) ==>
            || party.phase.exit.CommitUncertain?
            || (party.phase.exit.CommitFailed? && !party.phase.exit.released)
            || party.phase.exit.ExitCancelled?)
  {
    hide After, Inv, RunOnce, ReserveBodyOf, Aborts, ReadsAsRejection, LastAnswered;
    Reachable(p, setup, actions);
    var party := After(p, setup, actions).parties[g];
    PartyFacts(p, After(p, setup, actions), g);
    if party.phase.Left? && !LastAnswered(party) && party.log.end.Returned? && !Aborts(party.log.ops) {
      UnansweredExit(p, party);
    }
  }

  lemma UnansweredExit(p: Platform, party: Party)
    requires LocalOk(p, party) && party.phase.Left? && !LastAnswered(party)
    requires party.log.end.Returned? && !Aborts(party.log.ops)
    ensures || party.phase.exit.CommitUncertain?
            || (party.phase.exit.CommitFailed? && !party.phase.exit.released)
            || party.phase.exit.ExitCancelled?
  {
    hide RunOnce, ReserveBodyOf, Aborts, ReadsAsRejection, Succeeded;
    var log, calls := party.log, party.calls;
    CallLanguage(p, party.config, log.ops, log.end, log.replies);
    NoSilentLoss(p, party.config, log.ops, log.end, log.replies);
    assert Kinds(calls)[|calls| - 1] == KindOf(calls[|calls| - 1]);
    assert Kinds(calls[1..])[|calls| - 2] == KindOf(calls[|calls| - 1]);
  }
}
