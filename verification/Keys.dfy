/** Deterministic idempotency keys: `ap2:{scope}:{hash}:{phase}[:{suffix}]`. */
module Keys {
  import opened Basics
  import opened Mandates

  const IDEMPOTENCY_PREFIX := "ap2"
  const SCOPE_OPEN_MANDATE := "open_mandate"
  const SCOPE_TRANSACTION := "tx"
  const HASH_LENGTH: nat := 32
  const SUFFIX_LENGTH: nat := 64

  const RESERVE := "reserve"
  const COMMIT := "commit"
  const RELEASE := "release"

  function HashInput(p: Platform, value: string): string {
    Take(p.sha256Hex(value), HASH_LENGTH)
  }

  /** The lock scope of a mandate and the raw value that is hashed into its keys. */
  function ConsumeOnceInput(m: Mandate): (string, string) {
    if Truthy(m.openMandateHash) then (SCOPE_OPEN_MANDATE, m.openMandateHash.value)
    else (SCOPE_TRANSACTION, m.transactionId)
  }

  predicate AsciiAlphanumeric(c: char) {
    'a' <= c <= 'z' || 'A' <= c <= 'Z' || '0' <= c <= '9'
  }

  predicate SafeChar(c: char) {
    AsciiAlphanumeric(c) || c == '_' || c == '-' || c == '.'
  }

  function Sanitise(suffix: string): string {
    seq(|suffix|, i requires 0 <= i < |suffix| => if SafeChar(suffix[i]) then suffix[i] else '_')
  }

  function IdempotencyKey(p: Platform, m: Mandate, phase: string, suffix: Option<string>): string {
    var (scope, raw) := ConsumeOnceInput(m);
    var base := IDEMPOTENCY_PREFIX + ":" + (scope + ":" + (HashInput(p, raw) + ":" + phase));
    if Truthy(suffix) then base + ":" + Take(Sanitise(suffix.value), SUFFIX_LENGTH) else base
  }

  // ---- reading a key back ----

  /** What a key says. */
  datatype KeyParts = KeyParts(scope: string, hash: string, phase: string, suffix: Option<string>)

  /** What the key of a mandate should say. */
  function PartsOf(p: Platform, m: Mandate, phase: string, suffix: Option<string>): KeyParts {
    var (scope, raw) := ConsumeOnceInput(m);
    KeyParts(scope, HashInput(p, raw), phase,
      if Truthy(suffix) then Some(Take(Sanitise(suffix.value), SUFFIX_LENGTH)) else None)
  }

  /** `s.split(sep)`. */
  function Split(s: string, sep: char): (fields: seq<string>)
    ensures |fields| > 0
  {
    if s == "" then [""]
    else
      var rest := Split(s[1..], sep);
      if s[0] == sep then [""] + rest else [[s[0]] + rest[0]] + rest[1..]
  }

  function ParseKey(key: string): Option<KeyParts> {
    var f := Split(key, ':');
    if |f| == 4 && f[0] == IDEMPOTENCY_PREFIX then Some(KeyParts(f[1], f[2], f[3], None))
    else if |f| == 5 && f[0] == IDEMPOTENCY_PREFIX then Some(KeyParts(f[1], f[2], f[3], Some(f[4])))
    else None
  }

  lemma {:induction false} SplitField(a: string, b: string, sep: char)
    requires sep !in a
    ensures Split(a + [sep] + b, sep) == [a] + Split(b, sep)
  {
    var s := a + [sep] + b;
    if a == "" {
      assert s[1..] == b;
    } else {
      assert s[1..] == a[1..] + [sep] + b;
      SplitField(a[1..], b, sep);
      assert [a[0]] + a[1..] == a;
    }
  }

  lemma {:induction false} SplitLast(a: string, sep: char)
    requires sep !in a
    ensures Split(a, sep) == [a]
  {
    if a != "" {
      SplitLast(a[1..], sep);
      assert [a[0]] + a[1..] == a;
    }
  }

  lemma NoSeparators(p: Platform, m: Mandate, suffix: string)
    requires ValidPlatform(p)
    ensures ':' !in ConsumeOnceInput(m).0
    ensures ':' !in HashInput(p, ConsumeOnceInput(m).1)
    ensures ':' !in Take(Sanitise(suffix), SUFFIX_LENGTH)
  {
    assert IsDigest(p.sha256Hex(ConsumeOnceInput(m).1));
  }

  /** A key can be read back: nothing that goes into it is lost or confused with a neighbour. */
  lemma KeyRoundTrip(p: Platform, m: Mandate, phase: string, suffix: Option<string>)
    requires ValidPlatform(p) && ':' !in phase
    ensures ParseKey(IdempotencyKey(p, m, phase, suffix)) == Some(PartsOf(p, m, phase, suffix))
  {
    var (scope, raw) := ConsumeOnceInput(m);
    var hash := HashInput(p, raw);
    var text := if Truthy(suffix) then suffix.value else "";
    NoSeparators(p, m, text);
    var tail := if Truthy(suffix) then phase + ":" + Take(Sanitise(text), SUFFIX_LENGTH) else phase;
    assert IdempotencyKey(p, m, phase, suffix)
        == IDEMPOTENCY_PREFIX + ":" + (scope + ":" + (hash + ":" + tail));
    SplitField(IDEMPOTENCY_PREFIX, scope + ":" + (hash + ":" + tail), ':');
    SplitField(scope, hash + ":" + tail, ':');
    SplitField(hash, tail, ':');
    if Truthy(suffix) {
      SplitField(phase, Take(Sanitise(text), SUFFIX_LENGTH), ':');
      SplitLast(Take(Sanitise(text), SUFFIX_LENGTH), ':');
    } else {
      SplitLast(phase, ':');
    }
  }

  /** Two keys are equal exactly when scope, hash, phase and sanitised suffix all are. */
  lemma KeyUnambiguous(p: Platform, m: Mandate, phase: string, suffix: Option<string>,
                       m': Mandate, phase': string, suffix': Option<string>)
    requires ValidPlatform(p) && ':' !in phase && ':' !in phase'
    ensures IdempotencyKey(p, m, phase, suffix) == IdempotencyKey(p, m', phase', suffix')
       <==> PartsOf(p, m, phase, suffix) == PartsOf(p, m', phase', suffix')
  {
    KeyRoundTrip(p, m, phase, suffix);
    KeyRoundTrip(p, m', phase', suffix');
  }

  predicate Phase(phase: string) {
    phase == RESERVE || phase == COMMIT || phase == RELEASE
  }

  /** Whether two mandates fall into one bucket does not depend on the phase asked about. */
  lemma BucketsAgree(p: Platform, m: Mandate, m': Mandate, phase: string, phase': string)
    requires ValidPlatform(p) && Phase(phase) && Phase(phase')
    ensures IdempotencyKey(p, m, phase, None) == IdempotencyKey(p, m', phase, None)
       <==> IdempotencyKey(p, m, phase', None) == IdempotencyKey(p, m', phase', None)
    ensures phase != phase' ==> IdempotencyKey(p, m, phase, None) != IdempotencyKey(p, m', phase', None)
  {
    KeyUnambiguous(p, m, phase, None, m', phase, None);
    KeyUnambiguous(p, m, phase', None, m', phase', None);
    KeyUnambiguous(p, m, phase, None, m', phase', None);
  }

  /** The part of a digest that goes into a key. */
  function Fingerprint(p: Platform, value: string): string {
    Take(p.sha256Hex(value), 32)
  }

  /** The text of a key, as it is documented. */
  lemma KeyText(p: Platform, m: Mandate, phase: string, suffix: Option<string>)
    ensures var stem := if Truthy(m.openMandateHash)
        then "ap2:open_mandate:" + Fingerprint(p, m.openMandateHash.value)
        else "ap2:tx:" + Fingerprint(p, m.transactionId);
      IdempotencyKey(p, m, phase, suffix)
      == stem + ":" + phase + (if Truthy(suffix) then ":" + Take(Sanitise(suffix.value), 64) else "")
  {
    var (scope, raw) := ConsumeOnceInput(m);
    assert "ap2" + ":" + (scope + ":" + (HashInput(p, raw) + ":" + phase))
        == ("ap2" + ":" + scope + ":") + HashInput(p, raw) + ":" + phase;
    assert "ap2" + ":" + SCOPE_OPEN_MANDATE + ":" == "ap2:open_mandate:";
    assert "ap2" + ":" + SCOPE_TRANSACTION + ":" == "ap2:tx:";
  }

  /** Two mandates share a bucket exactly when the fingerprints of their open mandates agree, or, if
      neither has one, those of their transactions. */
  lemma BucketOfMandate(p: Platform, m: Mandate, m': Mandate)
    requires ValidPlatform(p)
    ensures IdempotencyKey(p, m, RESERVE, None) == IdempotencyKey(p, m', RESERVE, None)
       <==> if Truthy(m.openMandateHash)
            then Truthy(m'.openMandateHash)
                 && Fingerprint(p, m.openMandateHash.value) == Fingerprint(p, m'.openMandateHash.value)
            else !Truthy(m'.openMandateHash) && Fingerprint(p, m.transactionId) == Fingerprint(p, m'.transactionId)
  {
    KeyUnambiguous(p, m, RESERVE, None, m', RESERVE, None);
    assert |SCOPE_OPEN_MANDATE| != |SCOPE_TRANSACTION|;
  }

  /** The hash is not asked to be injective, only not to collide on the two identifiers at hand. */
  predicate Collides(p: Platform, a: string, b: string) {
    a != b && Fingerprint(p, a) == Fingerprint(p, b)
  }

  /** The consume-once lock: barring a collision, two mandates share a bucket exactly when they were made
      under the same open mandate, or neither has one and they are for the same transaction. */
  lemma ConsumeOnceLock(p: Platform, m: Mandate, m': Mandate)
    requires ValidPlatform(p)
    requires Truthy(m.openMandateHash) && Truthy(m'.openMandateHash) ==>
      !Collides(p, m.openMandateHash.value, m'.openMandateHash.value)
    requires !Truthy(m.openMandateHash) && !Truthy(m'.openMandateHash) ==> !Collides(p, m.transactionId, m'.transactionId)
    ensures IdempotencyKey(p, m, RESERVE, None) == IdempotencyKey(p, m', RESERVE, None)
       <==> if Truthy(m.openMandateHash) then m'.openMandateHash == m.openMandateHash
            else !Truthy(m'.openMandateHash) && m'.transactionId == m.transactionId
  {
    BucketOfMandate(p, m, m');
  }

  /** A mandate with an open mandate never shares a key with one without, even under a hash collision. */
  lemma ScopesNeverCollide(p: Platform, m: Mandate, m': Mandate, phase: string, suffix: Option<string>,
                           phase': string, suffix': Option<string>)
    requires ValidPlatform(p) && Phase(phase) && Phase(phase')
    requires Truthy(m.openMandateHash) && !Truthy(m'.openMandateHash)
    ensures IdempotencyKey(p, m, phase, suffix) != IdempotencyKey(p, m', phase', suffix')
  {
    KeyUnambiguous(p, m, phase, suffix, m', phase', suffix');
    assert |SCOPE_OPEN_MANDATE| != |SCOPE_TRANSACTION|;
  }

  // ---- the form of a key ----

  predicate KeyChar(c: char) {
    SafeChar(c) || c == ':'
  }

  /** A token character of section 3.2.6 of RFC 7230: a letter or digit of ASCII, by its code, or one of
      fifteen marks. */
  predicate TokenChar(c: char) {
    || 0x30 <= c as int <= 0x39 || 0x41 <= c as int <= 0x5A || 0x61 <= c as int <= 0x7A
    || c in {'!', '#', '$', '%', '&', '\'', '*', '+', '-', '.', '^', '_', '`', '|', '~'}
  }

  /** The safe characters are the token characters but for twelve of the marks. */
  lemma SafeAmongTokens(c: char)
    ensures SafeChar(c) <==> TokenChar(c) && c !in {'!', '#', '$', '%', '&', '\'', '*', '+', '^', '`', '|', '~'}
  {}

  predicate All(s: string, ok: char -> bool) {
    forall i :: 0 <= i < |s| ==> ok(s[i])
  }

  /** Keys are short and header-safe, and even the longest suffix leaves the phase in place. */
  lemma KeyForm(p: Platform, m: Mandate, phase: string, suffix: Option<string>)
    requires ValidPlatform(p) && Phase(phase)
    ensures |IdempotencyKey(p, m, phase, suffix)| <= 122
    ensures All(IdempotencyKey(p, m, phase, suffix), KeyChar)
    ensures var (scope, raw) := ConsumeOnceInput(m);
            |HashInput(p, raw)| == 32
            && IDEMPOTENCY_PREFIX + ":" + (scope + ":" + (HashInput(p, raw) + ":" + phase))
               <= IdempotencyKey(p, m, phase, suffix)
  {
    var (scope, raw) := ConsumeOnceInput(m);
    assert IsDigest(p.sha256Hex(raw));
    assert All(HashInput(p, raw), KeyChar);
    assert All(scope, KeyChar);
    assert All(phase, KeyChar);
    if Truthy(suffix) {
      assert All(Sanitise(suffix.value), KeyChar);
    }
  }

  /** The sanitiser keeps length, is idempotent, commutes with truncation, leaves safe text alone
      and yields header token characters only. */
  lemma SanitiserLaws(s: string, n: nat)
    ensures |Sanitise(s)| == |s|
    ensures forall i :: 0 <= i < |s| ==> Sanitise(s)[i] == if SafeChar(s[i]) then s[i] else '_'
    ensures Sanitise(Sanitise(s)) == Sanitise(s)
    ensures Take(Sanitise(s), n) == Sanitise(Take(s, n))
    ensures Sanitise(s) == s <==> All(s, SafeChar)
    ensures All(Sanitise(s), TokenChar)
  {
    if Sanitise(s) == s {
      forall i | 0 <= i < |s| ensures SafeChar(s[i]) {
        assert Sanitise(s)[i] == s[i];
      }
    }
  }
}
