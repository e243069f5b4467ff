/** The Cycles server as far as the wrapper relies on it. These rules are the assumptions of the
    protocol model; nothing else about the server is used. Requests are handled one at a time, any
    request may be refused, and an active reservation may expire at any moment. */
module Server {
  import opened Basics
  import opened Payloads

  /** Idempotency keys are deduplicated per tenant and endpoint. */
  datatype Bucket = Bucket(tenant: string, key: string)

  datatype Status = Active | SettledBy(commit: CommitBody) | Released | Expired

  datatype Reservation = Reservation(bucket: Bucket, body: ReserveBody, status: Status)

  datatype Settlement = Settlement(bucket: Bucket, id: string, amount: int)

  /** One idempotency cache per endpoint, the reservations by id, and the money settled so far. */
  datatype ServerState = ServerState(
    reserves: map<Bucket, (ReserveBody, string)>,
    commits: map<Bucket, (string, CommitBody)>,
    releases: map<Bucket, (string, ReleaseBody)>,
    reservations: map<string, Reservation>,
    ledger: seq<Settlement>)

  const EMPTY_SERVER := ServerState(map[], map[], map[], map[], [])

  /** What the server is free to choose: to refuse a request, and the id of a new reservation. */
  datatype Choice = Choice(refuse: bool, id: string)

  /** A known key replays the first reservation for the same payload and is refused for any other;
      an unknown key creates a reservation under an unused id, or is refused. The result is the id
      of a granted reservation. */
  function HandleReserve(s: ServerState, tenant: string, body: ReserveBody, choice: Choice)
    : (ServerState, Option<string>)
  {
    var b := Bucket(tenant, body.idempotencyKey);
    if b in s.reserves then
      (s, if s.reserves[b].0 == body then Some(s.reserves[b].1) else None)
    else if choice.refuse || choice.id in s.reservations then
      (s, None)
    else
      (s.(reserves := s.reserves[b := (body, choice.id)],
          reservations := s.reservations[choice.id := Reservation(b, body, Active)]),
       Some(choice.id))
  }

  function SetStatus(s: ServerState, id: string, status: Status): map<string, Reservation>
    requires id in s.reservations
  {
    s.reservations[id := s.reservations[id].(status := status)]
  }

  predicate IsActive(s: ServerState, id: string) {
    id in s.reservations && s.reservations[id].status.Active?
  }

  /** A known key replays success for the same payload; a reservation that is not active refuses. */
  function HandleCommit(s: ServerState, tenant: string, id: string, body: CommitBody, choice: Choice)
    : (ServerState, bool)
  {
    var b := Bucket(tenant, body.idempotencyKey);
    if b in s.commits then (s, s.commits[b] == (id, body))
    else if choice.refuse || !IsActive(s, id) then (s, false)
    else
      (s.(commits := s.commits[b := (id, body)],
          reservations := SetStatus(s, id, SettledBy(body)),
          ledger := s.ledger + [Settlement(s.reservations[id].bucket, id, body.actual.amount)]),
       true)
  }

  function HandleRelease(s: ServerState, tenant: string, id: string, body: ReleaseBody, choice: Choice)
    : (ServerState, bool)
  {
    var b := Bucket(tenant, body.idempotencyKey);
    if b in s.releases then (s, s.releases[b] == (id, body))
    else if choice.refuse || !IsActive(s, id) then (s, false)
    else (s.(releases := s.releases[b := (id, body)], reservations := SetStatus(s, id, Released)), true)
  }

  function HandleExpiry(s: ServerState, id: string): ServerState {
    if IsActive(s, id) then s.(reservations := SetStatus(s, id, Expired)) else s
  }

  // ---- what the server keeps ----

  predicate StatusIs(s: ServerState, id: string, status: Status) {
    id in s.reservations && s.reservations[id].status == status
  }

  ghost predicate EntriesBacked(s: ServerState) {
    forall b :: b in s.reserves ==>
      && s.reserves[b].0.idempotencyKey == b.key
      && s.reserves[b].1 in s.reservations
      && s.reservations[s.reserves[b].1].bucket == b
      && s.reservations[s.reserves[b].1].body == s.reserves[b].0
  }

  ghost predicate ReservationsCached(s: ServerState) {
    forall id :: id in s.reservations ==>
      s.reservations[id].bucket in s.reserves && s.reserves[s.reservations[id].bucket].1 == id
  }

  /** Reservations and reserve-cache entries correspond one to one. */
  ghost predicate CacheMatches(s: ServerState) {
    EntriesBacked(s) && ReservationsCached(s)
  }

  ghost predicate RepliesTrue(s: ServerState) {
    && (forall b :: b in s.commits ==> StatusIs(s, s.commits[b].0, SettledBy(s.commits[b].1)))
    && (forall b :: b in s.releases ==> StatusIs(s, s.releases[b].0, Released))
  }

  ghost predicate LedgerMatches(s: ServerState) {
    && (forall i :: 0 <= i < |s.ledger| ==> EntryTrue(s, s.ledger[i]))
    && (forall i, j :: 0 <= i < j < |s.ledger| ==> s.ledger[i].id != s.ledger[j].id)
    && (forall id :: id in s.reservations && s.reservations[id].status.SettledBy? ==> Recorded(s.ledger, id))
  }

  predicate EntryTrue(s: ServerState, e: Settlement) {
    && e.id in s.reservations
    && s.reservations[e.id].bucket == e.bucket
    && s.reservations[e.id].status.SettledBy?
    && s.reservations[e.id].status.commit.actual.amount == e.amount
  }

  ghost predicate Recorded(ledger: seq<Settlement>, id: string) {
    exists i :: 0 <= i < |ledger| && ledger[i].id == id
  }

  ghost predicate ServerOk(s: ServerState) {
    CacheMatches(s) && RepliesTrue(s) && LedgerMatches(s)
  }

  /** How the server may change: nothing cached is forgotten, and only active reservations change. */
  ghost predicate Grows(s: ServerState, s': ServerState) {
    && (forall b :: b in s.reserves ==> b in s'.reserves && s'.reserves[b] == s.reserves[b])
    && (forall id :: id in s.reservations ==>
          && id in s'.reservations
          && s'.reservations[id].bucket == s.reservations[id].bucket
          && s'.reservations[id].body == s.reservations[id].body
          && (s'.reservations[id].status == s.reservations[id].status || s.reservations[id].status.Active?))
  }

  lemma GrowsTransitive(s: ServerState, t: ServerState, u: ServerState)
    requires Grows(s, t) && Grows(t, u)
    ensures Grows(s, u)
  {}

  // ---- creating a reservation ----

  predicate Creates(s: ServerState, s': ServerState, b: Bucket, body: ReserveBody, id: string) {
    && b.key == body.idempotencyKey && b !in s.reserves && id !in s.reservations
    && s' == s.(reserves := s.reserves[b := (body, id)], reservations := s.reservations[id := Reservation(b, body, Active)])
  }

  lemma CreateKeepsCache(s: ServerState, s': ServerState, b: Bucket, body: ReserveBody, id: string)
    requires CacheMatches(s) && Creates(s, s', b, body, id)
    ensures CacheMatches(s')
  {
    hide EntriesBacked, ReservationsCached, Creates;
    CreateKeepsEntries(s, s', b, body, id);
    CreateKeepsOwners(s, s', b, body, id);
  }

  lemma CreateKeepsEntries(s: ServerState, s': ServerState, b: Bucket, body: ReserveBody, id: string)
    requires EntriesBacked(s) && Creates(s, s', b, body, id)
    ensures EntriesBacked(s')
  {}

  lemma CreateKeepsOwners(s: ServerState, s': ServerState, b: Bucket, body: ReserveBody, id: string)
    requires ReservationsCached(s) && Creates(s, s', b, body, id)
    ensures ReservationsCached(s')
  {}

  lemma CreateGrows(s: ServerState, s': ServerState, b: Bucket, body: ReserveBody, id: string)
    requires Creates(s, s', b, body, id)
    ensures Grows(s, s')
  {}

  lemma CreateKeepsRest(s: ServerState, s': ServerState, b: Bucket, body: ReserveBody, id: string)
    requires RepliesTrue(s) && LedgerMatches(s) && Creates(s, s', b, body, id)
    ensures RepliesTrue(s') && LedgerMatches(s')
  {
    assert forall i :: 0 <= i < |s.ledger| ==> EntryTrue(s, s.ledger[i]) && EntryTrue(s', s'.ledger[i]);
  }

  lemma ReserveKeeps(s: ServerState, tenant: string, body: ReserveBody, choice: Choice)
    requires ServerOk(s)
    ensures var (s', granted) := HandleReserve(s, tenant, body, choice);
      && ServerOk(s') && Grows(s, s')
      && (granted.Some? ==>
            var b := Bucket(tenant, body.idempotencyKey);
            b in s'.reserves && s'.reserves[b] == (body, granted.value))
  {
    hide CacheMatches, RepliesTrue, LedgerMatches, Grows;
    var (s', granted) := HandleReserve(s, tenant, body, choice);
    var b := Bucket(tenant, body.idempotencyKey);
    if s' == s {
      GrowsReflexive(s);
    } else {
      assert Creates(s, s', b, body, choice.id);
      CreateKeepsCache(s, s', b, body, choice.id);
      CreateGrows(s, s', b, body, choice.id);
      CreateKeepsRest(s, s', b, body, choice.id);
    }
  }

  lemma GrowsReflexive(s: ServerState)
    ensures Grows(s, s)
  {}

  // ---- ending a reservation ----

  /** An active reservation takes its final status. */
  predicate Ends(s: ServerState, s': ServerState, id: string, status: Status) {
    && IsActive(s, id) && !status.Active?
    && s'.reserves == s.reserves
    && s'.reservations == SetStatus(s, id, status)
  }

  lemma EndKeepsCache(s: ServerState, s': ServerState, id: string, status: Status)
    requires CacheMatches(s) && Ends(s, s', id, status)
    ensures CacheMatches(s') && Grows(s, s')
  {}

  lemma EndKeepsFinal(s: ServerState, s': ServerState, id: string, status: Status)
    requires Ends(s, s', id, status)
    ensures StatusIs(s', id, status)
    ensures forall other, final: Status {:trigger StatusIs(s, other, final)} ::
      !final.Active? && StatusIs(s, other, final) ==> StatusIs(s', other, final)
  {}

  lemma EndKeepsReplies(s: ServerState, s': ServerState, id: string, status: Status)
    requires RepliesTrue(s) && Ends(s, s', id, status)
    requires s'.commits == s.commits && s'.releases == s.releases
    ensures RepliesTrue(s')
  {
    hide Ends, StatusIs;
    EndKeepsFinal(s, s', id, status);
  }

  /** Neither a release nor an expiry touches the money. */
  lemma RetireKeepsLedger(s: ServerState, s': ServerState, id: string, status: Status)
    requires LedgerMatches(s) && Ends(s, s', id, status) && !status.SettledBy? && s'.ledger == s.ledger
    ensures LedgerMatches(s')
  {
    assert forall i :: 0 <= i < |s.ledger| ==> EntryTrue(s, s.ledger[i]) && EntryTrue(s', s'.ledger[i]);
  }

  lemma SettleKeepsLedger(s: ServerState, s': ServerState, id: string, body: CommitBody)
    requires LedgerMatches(s) && Ends(s, s', id, SettledBy(body))
    requires s'.ledger == s.ledger + [Settlement(s.reservations[id].bucket, id, body.actual.amount)]
    ensures LedgerMatches(s')
  {
    var n := |s.ledger|;
    assert forall i :: 0 <= i < n ==> EntryTrue(s, s.ledger[i]) && s'.ledger[i] == s.ledger[i] && s.ledger[i].id != id;
    assert s'.ledger[n].id == id;
    forall other | other in s'.reservations && s'.reservations[other].status.SettledBy? ensures Recorded(s'.ledger, other) {
      if other != id {
        assert Recorded(s.ledger, other);
      }
    }
  }

  lemma CommitKeeps(s: ServerState, tenant: string, id: string, body: CommitBody, choice: Choice)
    requires ServerOk(s)
    ensures var (s', done) := HandleCommit(s, tenant, id, body, choice);
      && ServerOk(s') && Grows(s, s')
      && (done ==> StatusIs(s', id, SettledBy(body)))
  {
    hide CacheMatches, LedgerMatches, Grows, StatusIs;
    var (s', done) := HandleCommit(s, tenant, id, body, choice);
    var b := Bucket(tenant, body.idempotencyKey);
    if b in s.commits || choice.refuse || !IsActive(s, id) {
      GrowsReflexive(s);
    } else {
      EndKeepsCache(s, s', id, SettledBy(body));
      EndKeepsFinal(s, s', id, SettledBy(body));
      SettleKeepsLedger(s, s', id, body);
    }
  }

  lemma ReleaseKeeps(s: ServerState, tenant: string, id: string, body: ReleaseBody, choice: Choice)
    requires ServerOk(s)
    ensures var (s', done) := HandleRelease(s, tenant, id, body, choice);
      && ServerOk(s') && Grows(s, s')
      && (done ==> StatusIs(s', id, Released))
  {
    hide CacheMatches, LedgerMatches, Grows, StatusIs;
    var (s', done) := HandleRelease(s, tenant, id, body, choice);
    var b := Bucket(tenant, body.idempotencyKey);
    if b in s.releases || choice.refuse || !IsActive(s, id) {
      GrowsReflexive(s);
    } else {
      EndKeepsCache(s, s', id, Released);
      EndKeepsFinal(s, s', id, Released);
      RetireKeepsLedger(s, s', id, Released);
    }
  }

  lemma ExpiryKeeps(s: ServerState, id: string)
    requires ServerOk(s)
    ensures var s' := HandleExpiry(s, id);
      && ServerOk(s') && Grows(s, s')
      && s'.ledger == s.ledger && s'.reservations.Keys == s.reservations.Keys
      && (IsActive(s, id) ==> StatusIs(s', id, Expired))
      && (forall other :: other in s.reservations && !(other == id && IsActive(s, id)) ==>
            s'.reservations[other] == s.reservations[other])
  {
    hide CacheMatches, LedgerMatches, RepliesTrue, Grows;
    var s' := HandleExpiry(s, id);
    if IsActive(s, id) {
      EndKeepsCache(s, s', id, Expired);
      EndKeepsReplies(s, s', id, Expired);
      RetireKeepsLedger(s, s', id, Expired);
    } else {
      GrowsReflexive(s);
    }
  }

  // ---- the money of a bucket ----

  /** All that was ever settled for a bucket. */
  function Total(ledger: seq<Settlement>, bucket: Bucket): int {
    if |ledger| == 0 then 0
    else Total(ledger[1..], bucket) + if ledger[0].bucket == bucket then ledger[0].amount else 0
  }

  lemma {:induction false} TotalOfNone(ledger: seq<Settlement>, bucket: Bucket)
    requires forall i :: 0 <= i < |ledger| ==> ledger[i].bucket != bucket
    ensures Total(ledger, bucket) == 0
  {
    if |ledger| > 0 {
      TotalOfNone(ledger[1..], bucket);
    }
  }

  lemma {:induction false} TotalOfOne(ledger: seq<Settlement>, bucket: Bucket, k: nat)
    requires k < |ledger| && ledger[k].bucket == bucket
    requires forall i :: 0 <= i < |ledger| && i != k ==> ledger[i].bucket != bucket
    ensures Total(ledger, bucket) == ledger[k].amount
  {
    if k == 0 {
      TotalOfNone(ledger[1..], bucket);
    } else {
      TotalOfOne(ledger[1..], bucket, k - 1);
    }
  }

  /** A bucket has one reservation at most, so what was settled for it is one commit's amount or nothing. */
  lemma TotalIsOneCommit(s: ServerState, id: string)
    requires ServerOk(s) && id in s.reservations
    ensures var r := s.reservations[id];
      Total(s.ledger, r.bucket) == if r.status.SettledBy? then r.status.commit.actual.amount else 0
  {
    var r := s.reservations[id];
    forall i | 0 <= i < |s.ledger| && s.ledger[i].bucket == r.bucket ensures s.ledger[i].id == id {
      assert EntryTrue(s, s.ledger[i]);
    }
    if r.status.SettledBy? {
      assert Recorded(s.ledger, id);
      var k :| 0 <= k < |s.ledger| && s.ledger[k].id == id;
      assert EntryTrue(s, s.ledger[k]);
      forall i | 0 <= i < |s.ledger| && i != k ensures s.ledger[i].bucket != r.bucket {
        assert s.ledger[i].id != s.ledger[k].id;
      }
      TotalOfOne(s.ledger, r.bucket, k);
    } else {
      forall i | 0 <= i < |s.ledger| ensures s.ledger[i].bucket != r.bucket {
        assert EntryTrue(s, s.ledger[i]);
      }
      TotalOfNone(s.ledger, r.bucket);
    }
  }
}
