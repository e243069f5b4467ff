/** The request bodies sent to the Cycles server. Each builder fills its dictionaries in place and
    is proved against a function that says what the finished body is. */
module Payloads {
  import opened Basics
  import opened Mandates
  import opened Amounts
  import opened Keys

  const ACTION_NAME := "ap2.payment_mandate.present"
  const UNIT := "USD_MICROCENTS"
  const PAYMENT_PROTOCOL := "ap2"

  const DIM_RUN_ID := "run_id"
  const DIM_TRANSACTION_ID := "ap2_transaction_id"
  const DIM_CHECKOUT_HASH := "checkout_hash"
  const DIM_OPEN_MANDATE_HASH := "open_mandate_hash"
  const DIM_PAYEE_WEBSITE := "payee_website"
  const DIM_PAYMENT_CURRENCY := "payment_currency"
  const DIM_PAYMENT_PROTOCOL := "payment_protocol"

  /** Everything a guard is constructed with. */
  datatype Config = Config(
    mandate: Mandate,
    runId: string,
    tenant: Option<string>,
    workspace: Option<string>,
    app: Option<string>,
    workflow: Option<string>,
    agent: Option<string>,
    toolset: Option<string>,
    actionKind: string,
    ttlMs: int,
    overagePolicy: string,
    dryRun: bool,
    emitReceipt: bool,
    metadata: Option<map<string, PyValue>>,
    extraDimensions: Option<map<string, string>>)

  datatype Money = Money(unit: string, amount: int)

  /** A field that is None is a key that is missing from the dictionary. */
  datatype Subject = Subject(
    tenant: Option<string>,
    workspace: Option<string>,
    app: Option<string>,
    workflow: Option<string>,
    agent: Option<string>,
    toolset: Option<string>,
    dimensions: map<string, string>)

  datatype ReserveBody = ReserveBody(
    idempotencyKey: string,
    subject: Subject,
    actionKind: string,
    actionName: string,
    estimate: Money,
    ttlMs: int,
    overagePolicy: string,
    dryRun: bool,
    metadata: Option<map<string, PyValue>>)

  datatype CommitBody = CommitBody(
    idempotencyKey: string,
    actual: Money,
    metadata: Option<map<string, PyValue>>)

  datatype ReleaseBody = ReleaseBody(idempotencyKey: string, reason: string)

  // ---- what the bodies are ----

  function Present(value: Option<string>): Option<string> {
    if Truthy(value) then value else None
  }

  /** The dimensions that every reservation carries. */
  function FixedDimensions(p: Platform, c: Config): map<string, string> {
    map[DIM_RUN_ID := c.runId,
        DIM_TRANSACTION_ID := c.mandate.transactionId,
        DIM_PAYEE_WEBSITE := c.mandate.payeeWebsite,
        DIM_PAYMENT_CURRENCY := p.upper(c.mandate.currency),
        DIM_PAYMENT_PROTOCOL := PAYMENT_PROTOCOL]
  }

  /** A dimension that is there only when the mandate has a value for it. */
  function OptionalDimension(name: string, value: Option<string>): map<string, string> {
    if Truthy(value) then map[name := value.value] else map[]
  }

  function CanonicalDimensions(p: Platform, c: Config): map<string, string> {
    FixedDimensions(p, c)
    + OptionalDimension(DIM_CHECKOUT_HASH, c.mandate.checkoutHash)
    + OptionalDimension(DIM_OPEN_MANDATE_HASH, c.mandate.openMandateHash)
  }

  function Extras(c: Config): map<string, string> {
    if c.extraDimensions.Some? then c.extraDimensions.value else map[]
  }

  /** Caller-supplied dimensions, overridden by the canonical ones. */
  function Dimensions(p: Platform, c: Config): map<string, string> {
    Extras(c) + CanonicalDimensions(p, c)
  }

  function SubjectOf(p: Platform, c: Config): Subject {
    Subject(Present(c.tenant), Present(c.workspace), Present(c.app), Present(c.workflow),
            Present(c.agent), Present(c.toolset), Dimensions(p, c))
  }

  function Supplied(metadata: Option<map<string, PyValue>>): Option<map<string, PyValue>> {
    if metadata.Some? then NonEmpty(metadata.value) else None
  }

  function ReserveBodyOf(p: Platform, c: Config): Result<ReserveBody, Fault> {
    match AmountOf(p, c.mandate)
    case Err(fault) => Err(fault)
    case Ok(amount) =>
      Ok(ReserveBody(
        IdempotencyKey(p, c.mandate, RESERVE, None),
        SubjectOf(p, c),
        c.actionKind,
        ACTION_NAME,
        Money(UNIT, amount),
        c.ttlMs,
        c.overagePolicy,
        c.dryRun,
        Supplied(c.metadata)))
  }

  /** The amount to commit: the caller's if there is one, else the mandate's. */
  function CommitAmount(p: Platform, m: Mandate, actual: Option<int>): Result<int, Fault> {
    match actual
    case None => AmountOf(p, m)
    case Some(amount) => ValidateMicros(PyInt(amount))
  }

  function CommitBodyOf(p: Platform, m: Mandate, actual: Option<int>, metadata: Option<map<string, PyValue>>)
    : Result<CommitBody, Fault>
  {
    match CommitAmount(p, m, actual)
    case Err(fault) => Err(fault)
    case Ok(amount) => Ok(CommitBody(IdempotencyKey(p, m, COMMIT, None), Money(UNIT, amount), Supplied(metadata)))
  }

  function ReleaseBodyOf(p: Platform, m: Mandate, reason: string, exceptionType: Option<string>): ReleaseBody {
    ReleaseBody(IdempotencyKey(p, m, RELEASE, exceptionType), Take(reason, 256))
  }

  // ---- how they are built ----

  /** Adds the caller's dimensions one by one, in whatever order the dictionary yields them. */
  method MergeExtras(canonical: map<string, string>, extras: map<string, string>) returns (dimensions: map<string, string>)
    ensures dimensions == extras + canonical
  {
    dimensions := canonical;
    var pending := extras.Keys;
    while pending != {}
      invariant pending <= extras.Keys
      invariant dimensions.Keys == canonical.Keys + (extras.Keys - pending)
      invariant forall k :: k in dimensions ==> dimensions[k] == if k in canonical then canonical[k] else extras[k]
      decreases |pending|
    {
      var key :| key in pending;
      pending := pending - {key};
      if key !in dimensions {
        dimensions := dimensions[key := extras[key]];
      }
    }
  }

  lemma AddOptional(d: map<string, string>, name: string, value: Option<string>)
    ensures d + OptionalDimension(name, value) == if Truthy(value) then d[name := value.value] else d
  {}

  method BuildDimensions(p: Platform, c: Config) returns (dimensions: map<string, string>)
    ensures dimensions == Dimensions(p, c)
  {
    dimensions := map[
      DIM_RUN_ID := c.runId,
      DIM_TRANSACTION_ID := c.mandate.transactionId,
      DIM_PAYEE_WEBSITE := c.mandate.payeeWebsite,
      DIM_PAYMENT_CURRENCY := p.upper(c.mandate.currency),
      DIM_PAYMENT_PROTOCOL := PAYMENT_PROTOCOL];
    AddOptional(dimensions, DIM_CHECKOUT_HASH, c.mandate.checkoutHash);
    if Truthy(c.mandate.checkoutHash) {
      dimensions := dimensions[DIM_CHECKOUT_HASH := c.mandate.checkoutHash.value];
    }
    AddOptional(dimensions, DIM_OPEN_MANDATE_HASH, c.mandate.openMandateHash);
    if Truthy(c.mandate.openMandateHash) {
      dimensions := dimensions[DIM_OPEN_MANDATE_HASH := c.mandate.openMandateHash.value];
    }
    if c.extraDimensions.Some? {
      dimensions := MergeExtras(dimensions, c.extraDimensions.value);
    }
  }

  method BuildSubject(p: Platform, c: Config) returns (subject: Subject)
    ensures subject == SubjectOf(p, c)
  {
    subject := Subject(None, None, None, None, None, None, map[]);
    if Truthy(c.tenant) { subject := subject.(tenant := c.tenant); }
    if Truthy(c.workspace) { subject := subject.(workspace := c.workspace); }
    if Truthy(c.app) { subject := subject.(app := c.app); }
    if Truthy(c.workflow) { subject := subject.(workflow := c.workflow); }
    if Truthy(c.agent) { subject := subject.(agent := c.agent); }
    if Truthy(c.toolset) { subject := subject.(toolset := c.toolset); }

    var dimensions := BuildDimensions(p, c);
    subject := subject.(dimensions := dimensions);
  }

  method BuildReservationBody(p: Platform, c: Config) returns (r: Result<ReserveBody, Fault>)
    ensures r == ReserveBodyOf(p, c)
  {
    var key := IdempotencyKey(p, c.mandate, RESERVE, None);
    var subject := BuildSubject(p, c);
    var amount := AmountMicros(p, c.mandate);
    if amount.Err? {
      return Err(amount.error);
    }
    var body := ReserveBody(key, subject, c.actionKind, ACTION_NAME, Money(UNIT, amount.value),
                            c.ttlMs, c.overagePolicy, false, None);
    if c.dryRun {
      body := body.(dryRun := true);
    }
    if c.metadata.Some? && |c.metadata.value| > 0 {
      body := body.(metadata := c.metadata);
    }
    return Ok(body);
  }

  method BuildCommitBody(p: Platform, m: Mandate, actual: Option<int>, metadata: Option<map<string, PyValue>>)
    returns (r: Result<CommitBody, Fault>)
    ensures r == CommitBodyOf(p, m, actual, metadata)
  {
    var amount: int;
    if actual.None? {
      var converted := AmountMicros(p, m);
      if converted.Err? {
        return Err(converted.error);
      }
      amount := converted.value;
    } else {
      var checked := ValidateMicros(PyInt(actual.value));
      if checked.Err? {
        return Err(checked.error);
      }
      amount := checked.value;
    }
    var body := CommitBody(IdempotencyKey(p, m, COMMIT, None), Money(UNIT, amount), None);
    if metadata.Some? && |metadata.value| > 0 {
      body := body.(metadata := metadata);
    }
    return Ok(body);
  }

  // ---- what a replayed reservation has in common ----

  /** The value of the checkout-hash dimension that reaches the server. */
  function EffectiveDimension(name: string, own: Option<string>, c: Config): Option<string> {
    if Truthy(own) then own
    else if name in Extras(c) then Some(Extras(c)[name])
    else None
  }

  function Lookup(d: map<string, string>, name: string): Option<string> {
    if name in d then Some(d[name]) else None
  }

  lemma DistinctNames()
    ensures DIM_PAYMENT_CURRENCY != DIM_PAYMENT_PROTOCOL
    ensures DIM_PAYEE_WEBSITE != DIM_CHECKOUT_HASH
  {
    assert DIM_PAYMENT_CURRENCY[8] != DIM_PAYMENT_PROTOCOL[8];
    assert DIM_PAYEE_WEBSITE[0] != DIM_CHECKOUT_HASH[0];
  }

  lemma FixedSources(p: Platform, c: Config)
    ensures var d := CanonicalDimensions(p, c);
      && Lookup(d, DIM_RUN_ID) == Some(c.runId)
      && Lookup(d, DIM_TRANSACTION_ID) == Some(c.mandate.transactionId)
      && Lookup(d, DIM_PAYEE_WEBSITE) == Some(c.mandate.payeeWebsite)
      && Lookup(d, DIM_PAYMENT_CURRENCY) == Some(p.upper(c.mandate.currency))
      && Lookup(d, DIM_PAYMENT_PROTOCOL) == Some(PAYMENT_PROTOCOL)
  {
    DistinctNames();
  }

  lemma OptionalSources(p: Platform, c: Config)
    ensures var d := CanonicalDimensions(p, c);
      && Lookup(d, DIM_CHECKOUT_HASH) == Present(c.mandate.checkoutHash)
      && Lookup(d, DIM_OPEN_MANDATE_HASH) == Present(c.mandate.openMandateHash)
  {
    DistinctNames();
  }

  lemma Overlay(extras: map<string, string>, canonical: map<string, string>, name: string)
    ensures Lookup(extras + canonical, name)
         == if Lookup(canonical, name).Some? then Lookup(canonical, name) else Lookup(extras, name)
  {}

  /** Where each dimension of a reservation comes from. */
  lemma DimensionSources(p: Platform, c: Config)
    ensures var d := Dimensions(p, c);
      && Lookup(d, DIM_RUN_ID) == Some(c.runId)
      && Lookup(d, DIM_TRANSACTION_ID) == Some(c.mandate.transactionId)
      && Lookup(d, DIM_PAYEE_WEBSITE) == Some(c.mandate.payeeWebsite)
      && Lookup(d, DIM_PAYMENT_CURRENCY) == Some(p.upper(c.mandate.currency))
      && Lookup(d, DIM_PAYMENT_PROTOCOL) == Some(PAYMENT_PROTOCOL)
      && Lookup(d, DIM_CHECKOUT_HASH) == EffectiveDimension(DIM_CHECKOUT_HASH, c.mandate.checkoutHash, c)
      && Lookup(d, DIM_OPEN_MANDATE_HASH) == EffectiveDimension(DIM_OPEN_MANDATE_HASH, c.mandate.openMandateHash, c)
  {
    FixedSources(p, c);
    OptionalSources(p, c);
    forall name { Overlay(Extras(c), CanonicalDimensions(p, c), name); }
  }

  /** An optional field is sent exactly if the caller gave one that is not empty, and then as it is. */
  predicate Carries(given: Option<string>, sent: Option<string>) {
    && (sent.Some? <==> given.Some? && given.value != "")
    && (sent.Some? ==> sent == given)
  }

  /** The names that callers cannot use for dimensions of their own, whatever the mandate. */
  const ALWAYS_CANONICAL := {"run_id", "ap2_transaction_id", "payee_website", "payment_currency", "payment_protocol"}

  /** What a reservation request says, field by field. */
  ghost predicate Describes(p: Platform, c: Config, b: ReserveBody) {
    && b.idempotencyKey == IdempotencyKey(p, c.mandate, "reserve", None)
    && b.dryRun == c.dryRun && b.ttlMs == c.ttlMs && b.overagePolicy == c.overagePolicy
    && b.actionKind == c.actionKind && b.actionName == "ap2.payment_mandate.present"
    && b.estimate.unit == "USD_MICROCENTS" && AmountOf(p, c.mandate).Ok?
    && b.estimate.amount == AmountOf(p, c.mandate).value
    && b.metadata != Some(map[])
    && (if b.metadata.Some? then b.metadata == c.metadata else c.metadata in {None, Some(map[])})
    && DescribesSubject(p, c, b.subject)
  }

  ghost predicate DescribesSubject(p: Platform, c: Config, s: Subject) {
    && Carries(c.tenant, s.tenant) && Carries(c.workspace, s.workspace) && Carries(c.app, s.app)
    && Carries(c.workflow, s.workflow) && Carries(c.agent, s.agent) && Carries(c.toolset, s.toolset)
    && DescribesPayment(p, c, s.dimensions)
  }

  ghost predicate DescribesPayment(p: Platform, c: Config, d: map<string, string>) {
    && Lookup(d, "run_id") == Some(c.runId)
    && Lookup(d, "ap2_transaction_id") == Some(c.mandate.transactionId)
    && Lookup(d, "payee_website") == Some(c.mandate.payeeWebsite)
    && Lookup(d, "payment_currency") == Some("USD")
    && Lookup(d, "payment_protocol") == Some("ap2")
    && (Truthy(c.mandate.checkoutHash) ==> Lookup(d, "checkout_hash") == c.mandate.checkoutHash)
    && (Truthy(c.mandate.openMandateHash) ==> Lookup(d, "open_mandate_hash") == c.mandate.openMandateHash)
    && (forall name ::
          || name in ALWAYS_CANONICAL
          || (name == "checkout_hash" && Truthy(c.mandate.checkoutHash))
          || (name == "open_mandate_hash" && Truthy(c.mandate.openMandateHash))
          || Lookup(d, name) == Lookup(Extras(c), name))
  }

  lemma OtherDimensions(p: Platform, c: Config, name: string)
    requires name !in ALWAYS_CANONICAL
    requires name == "checkout_hash" ==> !Truthy(c.mandate.checkoutHash)
    requires name == "open_mandate_hash" ==> !Truthy(c.mandate.openMandateHash)
    ensures Lookup(Dimensions(p, c), name) == Lookup(Extras(c), name)
  {}

  lemma DimensionsSay(p: Platform, c: Config)
    requires p.upper(c.mandate.currency) == "USD"
    ensures DescribesPayment(p, c, Dimensions(p, c))
  {
    hide Dimensions, Lookup, Extras;
    DimensionSources(p, c);
    forall name | name !in ALWAYS_CANONICAL
                && (name == "checkout_hash" ==> !Truthy(c.mandate.checkoutHash))
                && (name == "open_mandate_hash" ==> !Truthy(c.mandate.openMandateHash))
      ensures Lookup(Dimensions(p, c), name) == Lookup(Extras(c), name)
    {
      OtherDimensions(p, c, name);
    }
  }

  lemma MetadataSays(metadata: Option<map<string, PyValue>>)
    ensures Supplied(metadata) != Some(map[])
    ensures if Supplied(metadata).Some? then Supplied(metadata) == metadata else metadata in {None, Some(map[])}
  {}

  /** Where an accepted reservation request takes each of its fields from. Its payment is in US dollars, and
      the caller's own dimensions are all there but for those whose names are taken. */
  lemma RequestSays(p: Platform, c: Config)
    requires ReserveBodyOf(p, c).Ok?
    ensures p.upper(c.mandate.currency) == "USD"
    ensures Describes(p, c, ReserveBodyOf(p, c).value)
  {
    hide Dimensions, IdempotencyKey, Representable, DescribesPayment, Supplied;
    DimensionsSay(p, c);
    MetadataSays(c.metadata);
  }

  /** If two reservation bodies are equal, so that the server replays one reservation for both,
      then both describe the same payment, whatever extra dimensions the callers added. */
  lemma ReplayCannotCrossPayments(p: Platform, c: Config, c': Config)
    requires ValidPlatform(p)
    requires ReserveBodyOf(p, c).Ok? && ReserveBodyOf(p, c) == ReserveBodyOf(p, c')
    ensures c.mandate.transactionId == c'.mandate.transactionId
    ensures c.runId == c'.runId
    ensures c.mandate.payeeWebsite == c'.mandate.payeeWebsite
    ensures p.upper(c.mandate.currency) == p.upper(c'.mandate.currency)
    ensures AmountOf(p, c.mandate) == AmountOf(p, c'.mandate)
    ensures EffectiveDimension(DIM_CHECKOUT_HASH, c.mandate.checkoutHash, c)
         == EffectiveDimension(DIM_CHECKOUT_HASH, c'.mandate.checkoutHash, c')
    ensures ConsumeOnceInput(c.mandate).0 == ConsumeOnceInput(c'.mandate).0
    ensures Truthy(c.mandate.openMandateHash) <==> Truthy(c'.mandate.openMandateHash)
    ensures Truthy(c.mandate.openMandateHash) ==> c.mandate.openMandateHash == c'.mandate.openMandateHash
    ensures c.dryRun == c'.dryRun
  {
    hide CanonicalDimensions, Extras, AmountOf, IdempotencyKey;
    DimensionSources(p, c);
    DimensionSources(p, c');
    KeyUnambiguous(p, c.mandate, RESERVE, None, c'.mandate, RESERVE, None);
    assert |SCOPE_OPEN_MANDATE| != |SCOPE_TRANSACTION|;
  }

  /** The same guard, but with this hash in its mandate and the value for a missing one in its extra
      dimensions. */
  function WithHash(c: Config, own: Option<string>, spare: string): Config {
    c.(mandate := c.mandate.(checkoutHash := own), extraDimensions := Some(Extras(c)[DIM_CHECKOUT_HASH := spare]))
  }

  lemma SameCanonical(p: Platform, c: Config, own: Option<string>, spare: string, name: string)
    requires name != DIM_CHECKOUT_HASH
    ensures Lookup(CanonicalDimensions(p, WithHash(c, own, spare)), name) == Lookup(CanonicalDimensions(p, c), name)
  {}

  /** An extra dimension of that name stands in for a checkout hash that the mandate lacks, and is hidden
      by one that it has: as long as the effective value stays, the server sees the same request. */
  lemma ExtraStandsInForCheckoutHash(p: Platform, c: Config, own: Option<string>, hash: string)
    requires EffectiveDimension(DIM_CHECKOUT_HASH, c.mandate.checkoutHash, c) == Some(hash)
    requires Truthy(own) ==> own == Some(hash)
    ensures ReserveBodyOf(p, WithHash(c, own, hash)) == ReserveBodyOf(p, c)
  {
    hide CanonicalDimensions;
    var c' := WithHash(c, own, hash);
    var d, d' := Dimensions(p, c), Dimensions(p, c');
    forall name ensures Lookup(d', name) == Lookup(d, name) {
      Overlay(Extras(c), CanonicalDimensions(p, c), name);
      Overlay(Extras(c'), CanonicalDimensions(p, c'), name);
      if name == DIM_CHECKOUT_HASH {
        OptionalSources(p, c);
        OptionalSources(p, c');
      } else {
        SameCanonical(p, c, own, hash, name);
      }
    }
    LookupDecides(d', d);
  }

  lemma LookupDecides(d: map<string, string>, d': map<string, string>)
    requires forall name :: Lookup(d, name) == Lookup(d', name)
    ensures d == d'
  {
    forall name ensures name in d <==> name in d' {
      assert Lookup(d, name) == Lookup(d', name);
    }
    forall name | name in d ensures d[name] == d'[name] {
      assert Lookup(d, name) == Lookup(d', name);
    }
  }

  /** When an accepted reservation request tells the mandate's own checkout hash: exactly if no checkout
      hash reaches the server. Otherwise another guard, with the same value as an extra dimension instead
      of in its mandate or the other way round, sends the very same request. */
  lemma CheckoutHashIsToldIff(p: Platform, c: Config)
    requires ValidPlatform(p) && ReserveBodyOf(p, c).Ok?
    ensures (forall c': Config :: ReserveBodyOf(p, c') == ReserveBodyOf(p, c) ==>
               Present(c'.mandate.checkoutHash) == Present(c.mandate.checkoutHash))
       <==> !Truthy(EffectiveDimension(DIM_CHECKOUT_HASH, c.mandate.checkoutHash, c))
  {
    hide ReserveBodyOf, ValidPlatform;
    var effective := EffectiveDimension(DIM_CHECKOUT_HASH, c.mandate.checkoutHash, c);
    if Truthy(effective) {
      var own := if Truthy(c.mandate.checkoutHash) then None else effective;
      ExtraStandsInForCheckoutHash(p, c, own, effective.value);
      assert Present(WithHash(c, own, effective.value).mandate.checkoutHash) != Present(c.mandate.checkoutHash);
    } else {
      forall c': Config | ReserveBodyOf(p, c') == ReserveBodyOf(p, c)
        ensures Present(c'.mandate.checkoutHash) == Present(c.mandate.checkoutHash)
      {
        ReplayCannotCrossPayments(p, c, c');
      }
    }
  }
}
