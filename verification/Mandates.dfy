/** The mandate a payment is made under, and the two library functions the mapping relies on. */
module Mandates {
  import opened Basics

  /** What `Decimal.as_tuple()` yields for a finite decimal. */
  datatype DecimalTuple = DecimalTuple(negative: bool, digits: seq<nat>, exponent: int)

  /** Decimals carry at least one digit, each below ten, and no leading zero but the lone 0. */
  predicate Canonical(d: DecimalTuple) {
    && |d.digits| > 0
    && (forall i :: 0 <= i < |d.digits| ==> d.digits[i] <= 9)
    && (|d.digits| > 1 ==> d.digits[0] != 0)
  }

  type Decimal = d: DecimalTuple | Canonical(d) witness DecimalTuple(false, [0], 0)

  /** The outcome of parsing `amount_value`: no decimal at all, NaN or an infinity, or a finite decimal. */
  datatype AmountText = Unparsable | NonFinite | Finite(decimal: Decimal)

  datatype Mandate = Mandate(
    transactionId: string,
    amountValue: AmountText,
    currency: string,
    payeeWebsite: string,
    checkoutHash: Option<string>,
    openMandateHash: Option<string>)

  /** SHA-256 (hex-encoded, of the UTF-8 bytes) and `str.upper`: both belong to the Python library. */
  datatype Platform = Platform(sha256Hex: string -> string, upper: string -> string)

  predicate LowerHex(c: char) {
    '0' <= c <= '9' || 'a' <= c <= 'f'
  }

  /** A hex digest is always 64 lowercase hex characters long (FIPS 180-4). */
  ghost predicate ValidPlatform(p: Platform) {
    forall s: string :: IsDigest(p.sha256Hex(s))
  }

  predicate IsDigest(h: string) {
    |h| == 64 && forall i :: 0 <= i < |h| ==> LowerHex(h[i])
  }
}
