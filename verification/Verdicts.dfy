/** What guards may rely on, over every interleaving: a payment attempt is reserved once, settled at
    most once, and settled or released exactly as reported. */
module Verdicts {
  import opened Basics
  import opened Mandates
  import opened Amounts
  import opened Keys
  import opened Payloads
  import opened Lifecycle
  import opened Protocol
  import opened Parties
  import opened Interleavings
  import S = Server

  /** Two guards whose reservation requests fall into one idempotency bucket. */
  predicate SharesBucket(p: Platform, a: Entrant, b: Entrant) {
    && a.tenant == b.tenant
    && IdempotencyKey(p, a.config.mandate, RESERVE, None) == IdempotencyKey(p, b.config.mandate, RESERVE, None)
  }

  /** Guards share a bucket exactly when one tenant presents the same open mandate, or the same
      transaction without one, as long as the hash does not collide on the two identifiers. */
  lemma SharesBucketMeans(p: Platform, a: Entrant, b: Entrant)
    requires ValidPlatform(p)
    requires var (m, m') := (a.config.mandate, b.config.mandate);
      && (Truthy(m.openMandateHash) && Truthy(m'.openMandateHash) ==>
            !Collides(p, m.openMandateHash.value, m'.openMandateHash.value))
      && (!Truthy(m.openMandateHash) && !Truthy(m'.openMandateHash) ==> !Collides(p, m.transactionId, m'.transactionId))
    ensures var (m, m') := (a.config.mandate, b.config.mandate);
      SharesBucket(p, a, b)
      <==> && a.tenant == b.tenant
           && if Truthy(m.openMandateHash) then m'.openMandateHash == m.openMandateHash
              else !Truthy(m'.openMandateHash) && m'.transactionId == m.transactionId
  {
    hide IdempotencyKey, Collides;
    ConsumeOnceLock(p, a.config.mandate, b.config.mandate);
  }

  /** The body of a guard runs exactly when the guard got hold of a reservation. */
  predicate BodyRan(party: Party) {
    party.state.reservationId.Some?
  }

  /** Guards whose bodies ran hold their reservation on the server. */
  lemma RunningHolds(p: Platform, w: World, g: nat)
    requires Inv(p, w) && g < |w.parties| && BodyRan(w.parties[g])
    ensures Holds(p, w.server, w.parties[g], w.parties[g].state.reservationId.value)
  {
    hide S.ServerOk, GrantsTrue, LocalOk, Holds, SettledFor, ReleasedFor, ReportsReleased;
    assert SharedOk(p, w.server, w.acks, g, w.parties[g]);
  }

  lemma HoldersAgree(p: Platform, s: S.ServerState, a: Party, b: Party, i: string, j: string)
    requires BucketOf(p, a) == BucketOf(p, b) && Holds(p, s, a, i) && Holds(p, s, b, j)
    ensures i == j && ReserveBodyOf(p, a.config).Ok? && ReserveBodyOf(p, a.config) == ReserveBodyOf(p, b.config)
  {
    hide ReserveBodyOf, BucketOf;
  }

  /** Consume-once, on the server: in every run there is at most one reservation for a bucket. */
  lemma OneReservationPerBucket(p: Platform, setup: seq<Entrant>, actions: seq<Action>, i: string, j: string)
    requires Payments(setup)
    requires var s := After(p, setup, actions).server;
      i in s.reservations && j in s.reservations && s.reservations[i].bucket == s.reservations[j].bucket
    ensures i == j
  {
    hide PartiesOk, GrantsTrue, S.RepliesTrue, S.LedgerMatches, After;
    Reachable(p, setup, actions);
  }

  /** Consume-once, for the guards: all guards of one bucket whose bodies ran hold the same
      reservation and sent the same request for it. */
  lemma ConsumeOnce(p: Platform, setup: seq<Entrant>, actions: seq<Action>, g: nat, h: nat)
    requires Payments(setup) && g < |setup| && h < |setup| && SharesBucket(p, setup[g], setup[h])
    ensures var w := After(p, setup, actions);
      |w.parties| == |setup|
      && (BodyRan(w.parties[g]) && BodyRan(w.parties[h]) ==>
            && w.parties[g].state.reservationId == w.parties[h].state.reservationId
            && ReserveBodyOf(p, setup[g].config).Ok?
            && ReserveBodyOf(p, setup[g].config) == ReserveBodyOf(p, setup[h].config))
  {
    hide Inv, After, ReserveBodyOf, Holds, IdempotencyKey;
    Reachable(p, setup, actions);
    var w := After(p, setup, actions);
    if BodyRan(w.parties[g]) && BodyRan(w.parties[h]) {
      RunningHolds(p, w, g);
      RunningHolds(p, w, h);
      assert BucketOf(p, w.parties[g]) == BucketOf(p, w.parties[h]);
      HoldersAgree(p, w.server, w.parties[g], w.parties[h],
                   w.parties[g].state.reservationId.value, w.parties[h].state.reservationId.value);
    }
  }

  /** A bucket pays for one payment: of two guards that come with different transactions, payees,
      currencies, amounts, checkouts or runs, at most one runs its body. */
  lemma OnePaymentPerBucket(p: Platform, setup: seq<Entrant>, actions: seq<Action>, g: nat, h: nat)
    requires ValidPlatform(p) && Payments(setup) && g < |setup| && h < |setup| && SharesBucket(p, setup[g], setup[h])
    requires DifferentPayments(p, setup[g].config, setup[h].config)
    ensures var w := After(p, setup, actions);
      |w.parties| == |setup| && !(BodyRan(w.parties[g]) && BodyRan(w.parties[h]))
  {
    hide After, ReserveBodyOf, AmountOf, IdempotencyKey;
    ConsumeOnce(p, setup, actions, g, h);
    if ReserveBodyOf(p, setup[g].config).Ok? && ReserveBodyOf(p, setup[g].config) == ReserveBodyOf(p, setup[h].config) {
      ReplayCannotCrossPayments(p, setup[g].config, setup[h].config);
    }
  }

  predicate DifferentPayments(p: Platform, c: Config, c': Config) {
    || c.mandate.transactionId != c'.mandate.transactionId
    || c.mandate.payeeWebsite != c'.mandate.payeeWebsite
    || c.runId != c'.runId
    || p.upper(c.mandate.currency) != p.upper(c'.mandate.currency)
    || EffectiveDimension(DIM_CHECKOUT_HASH, c.mandate.checkoutHash, c)
         != EffectiveDimension(DIM_CHECKOUT_HASH, c'.mandate.checkoutHash, c')
    || AmountOf(p, c.mandate) != AmountOf(p, c'.mandate)
  }

  /** One open mandate pays for one transaction: when one tenant presents it for different payments, at
      most one of the guards runs its body. No assumption on the hash is needed. */
  lemma OneTransactionPerOpenMandate(p: Platform, setup: seq<Entrant>, actions: seq<Action>, g: nat, h: nat)
    requires ValidPlatform(p) && Payments(setup) && g < |setup| && h < |setup|
    requires var (a, b) := (setup[g], setup[h]);
      && a.tenant == b.tenant
      && Truthy(a.config.mandate.openMandateHash)
      && a.config.mandate.openMandateHash == b.config.mandate.openMandateHash
      && DifferentPayments(p, a.config, b.config)
    ensures var w := After(p, setup, actions);
      |w.parties| == |setup| && !(BodyRan(w.parties[g]) && BodyRan(w.parties[h]))
  {
    hide After, DifferentPayments, IdempotencyKey;
    BucketOfMandate(p, setup[g].config.mandate, setup[h].config.mandate);
    OnePaymentPerBucket(p, setup, actions, g, h);
  }

  /** Without open mandates one transaction is one payment: when one tenant presents it for different
      payees, amounts, checkouts or runs, at most one of the guards runs its body. */
  lemma OnePaymentPerTransaction(p: Platform, setup: seq<Entrant>, actions: seq<Action>, g: nat, h: nat)
    requires ValidPlatform(p) && Payments(setup) && g < |setup| && h < |setup|
    requires var (a, b) := (setup[g], setup[h]);
      && a.tenant == b.tenant
      && !Truthy(a.config.mandate.openMandateHash) && !Truthy(b.config.mandate.openMandateHash)
      && a.config.mandate.transactionId == b.config.mandate.transactionId
      && DifferentPayments(p, a.config, b.config)
    ensures var w := After(p, setup, actions);
      |w.parties| == |setup| && !(BodyRan(w.parties[g]) && BodyRan(w.parties[h]))
  {
    hide After, DifferentPayments, IdempotencyKey;
    BucketOfMandate(p, setup[g].config.mandate, setup[h].config.mandate);
    OnePaymentPerBucket(p, setup, actions, g, h);
  }

  // ---- verdicts ----

  /** What a guard's verdict says about the server. */
  lemma ReportsAreTrue(p: Platform, setup: seq<Entrant>, actions: seq<Action>, g: nat)
    requires Payments(setup) && g < |setup|
    ensures var w := After(p, setup, actions);
      |w.parties| == |setup|
      && var party := w.parties[g];
         && (party.state.committed ==>
               && |party.calls| > 1 && party.calls[1].Commit? && party.state.reservationId == Some(party.calls[1].id)
               && S.StatusIs(w.server, party.calls[1].id, S.SettledBy(party.calls[1].commit)))
         && (ReportsReleased(party) || ReleaseAck(g) in w.acks ==>
               && party.state.reservationId.Some?
               && S.StatusIs(w.server, party.state.reservationId.value, S.Released))
  {
    hide Inv, After, LocalOk, ReserveBodyOf, S.StatusIs;
    Reachable(p, setup, actions);
    PartyFacts(p, After(p, setup, actions), g);
  }

  /** Verdicts exclude each other. Of the guards of one bucket, those that report a commit sent the
      same commit request for the same reservation, and then no release of any of them is ever
      acknowledged or reported. */
  lemma ExclusiveVerdicts(p: Platform, setup: seq<Entrant>, actions: seq<Action>, g: nat, h: nat)
    requires Payments(setup) && g < |setup| && h < |setup| && SharesBucket(p, setup[g], setup[h])
    ensures var w := After(p, setup, actions);
      |w.parties| == |setup|
      && (w.parties[g].state.committed ==>
            && ReleaseAck(h) !in w.acks && !ReportsReleased(w.parties[h])
            && (w.parties[h].state.committed ==>
                  && |w.parties[g].calls| > 1 && |w.parties[h].calls| > 1
                  && w.parties[g].calls[1].Commit?
                  && w.parties[g].calls[1] == w.parties[h].calls[1]))
  {
    hide After, ReserveBodyOf, IdempotencyKey, ReportsReleased;
    ConsumeOnce(p, setup, actions, g, h);
    ReportsAreTrue(p, setup, actions, g);
    ReportsAreTrue(p, setup, actions, h);
  }

  /** What was ever settled for a bucket is the amount of one commit: the one that every committed
      guard sent. */
  lemma SettledOnce(p: Platform, setup: seq<Entrant>, actions: seq<Action>, g: nat)
    requires Payments(setup) && g < |setup|
    ensures var w := After(p, setup, actions);
      |w.parties| == |setup|
      && (w.parties[g].state.committed ==>
            && |w.parties[g].calls| > 1 && w.parties[g].calls[1].Commit?
            && S.Total(w.server.ledger, BucketOf(p, w.parties[g])) == w.parties[g].calls[1].commit.actual.amount)
      && (forall id :: id in w.server.reservations && !w.server.reservations[id].status.SettledBy? ==>
            S.Total(w.server.ledger, w.server.reservations[id].bucket) == 0)
  {
    hide After, LocalOk, ReserveBodyOf, PartiesOk, GrantsTrue, BucketOf, S.LedgerMatches, S.RepliesTrue, S.CacheMatches;
    Reachable(p, setup, actions);
    var w := After(p, setup, actions);
    ReportsAreTrue(p, setup, actions, g);
    if w.parties[g].state.committed {
      RunningHolds(p, w, g);
      HeldBucket(p, w.server, w.parties[g], w.parties[g].calls[1].id);
      S.TotalIsOneCommit(w.server, w.parties[g].calls[1].id);
    }
    forall id | id in w.server.reservations && !w.server.reservations[id].status.SettledBy?
      ensures S.Total(w.server.ledger, w.server.reservations[id].bucket) == 0
    {
      S.TotalIsOneCommit(w.server, id);
    }
  }

  lemma HeldBucket(p: Platform, s: S.ServerState, party: Party, id: string)
    requires S.ServerOk(s) && Holds(p, s, party, id)
    ensures id in s.reservations && s.reservations[id].bucket == BucketOf(p, party)
  {
    hide ReserveBodyOf, S.RepliesTrue, S.LedgerMatches, BucketOf;
  }

  lemma {:induction false} ExecAppend(p: Platform, w: World, before: seq<Action>, later: seq<Action>)
    ensures Exec(p, w, before + later) == Exec(p, Exec(p, w, before), later)
    decreases |later|
  {
    hide Step;
    if |later| == 0 {
      assert before + later == before;
    } else {
      var k := |later| - 1;
      ExecAppend(p, w, before, later[..k]);
      assert (before + later)[..|before + later| - 1] == before + later[..k];
    }
  }

  /** Outcomes are final. However the run goes on, a settled reservation stays settled by the same
      commit, and once a reservation is released or expired no guard of its bucket ever reports a
      commit. */
  lemma VerdictsAreFinal(p: Platform, setup: seq<Entrant>, before: seq<Action>, later: seq<Action>, id: string)
    requires Payments(setup)
    requires id in After(p, setup, before).server.reservations
    requires !After(p, setup, before).server.reservations[id].status.Active?
    ensures var w, w' := After(p, setup, before), After(p, setup, before + later);
      && id in w'.server.reservations
      && w'.server.reservations[id] == w.server.reservations[id]
      && (!w.server.reservations[id].status.SettledBy? ==>
            forall g :: 0 <= g < |w'.parties| && BucketOf(p, w'.parties[g]) == w.server.reservations[id].bucket ==>
              !w'.parties[g].state.committed)
  {
    hide Exec, LocalOk, ReserveBodyOf, PartiesOk, GrantsTrue, BucketOf, S.LedgerMatches, S.RepliesTrue;
    var w, w' := After(p, setup, before), After(p, setup, before + later);
    Reachable(p, setup, before);
    ExecAppend(p, Initial(setup), before, later);
    ExecKeeps(p, w, later);
    if !w.server.reservations[id].status.SettledBy? {
      forall g | 0 <= g < |w'.parties| && BucketOf(p, w'.parties[g]) == w.server.reservations[id].bucket
        ensures !w'.parties[g].state.committed
      {
        NoCommitOnUnsettled(p, setup, before + later, g, id);
      }
    }
  }

  lemma NoCommitOnUnsettled(p: Platform, setup: seq<Entrant>, actions: seq<Action>, g: nat, id: string)
    requires Payments(setup) && g < |setup|
    requires var w := After(p, setup, actions);
      && |w.parties| == |setup|
      && id in w.server.reservations && !w.server.reservations[id].status.SettledBy?
      && BucketOf(p, w.parties[g]) == w.server.reservations[id].bucket
    ensures !After(p, setup, actions).parties[g].state.committed
  {
    hide After, LocalOk, ReserveBodyOf, PartiesOk, GrantsTrue, BucketOf, S.LedgerMatches, S.RepliesTrue, S.CacheMatches;
    var w := After(p, setup, actions);
    ReportsAreTrue(p, setup, actions, g);
    if w.parties[g].state.committed {
      Reachable(p, setup, actions);
      RunningHolds(p, w, g);
      HeldBucket(p, w.server, w.parties[g], w.parties[g].calls[1].id);
      OneReservationPerBucket(p, setup, actions, id, w.parties[g].calls[1].id);
    }
  }

  /** A guard of the protocol that is through has made one run in the sense of the single-guard
      theorems, so all of them apply to it. */
  lemma EveryGuardRunsOnce(p: Platform, setup: seq<Entrant>, actions: seq<Action>, g: nat)
    requires Payments(setup) && g < |setup|
    ensures var w := After(p, setup, actions);
      |w.parties| == |setup|
      && var party := w.parties[g];
         var run := RunOnce(p, setup[g].config, party.log.ops, party.log.end, party.log.replies);
         && (party.phase.Turned? ==> run == Run(party.phase.entry, None, party.calls, party.state))
         && (party.phase.Left? ==> run == Run(Entered, Some(party.phase.exit), party.calls, party.state))
  {
    hide Inv, After, RunOnce, SharedOk, ReserveBodyOf;
    Reachable(p, setup, actions);
    PartyFacts(p, After(p, setup, actions), g);
  }
}
