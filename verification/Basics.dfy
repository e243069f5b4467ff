/** Shared vocabulary: optional values, results, Python's truthiness and slicing, and the
    dynamically typed values that callers hand to the guard. */
module Basics {

  datatype Option<+T> = None | Some(value: T)

  datatype Result<+T, +E> = Ok(value: T) | Err(error: E)

  /** The two exception classes that client-side validation raises. */
  datatype Fault = CurrencyFault | MandateFault

  /** A value whose Python type is only known at run time. */
  datatype PyValue =
    | PyNone
    | PyBool(b: bool)
    | PyInt(i: int)
    | PyFloat(r: real)
    | PyStr(s: string)
    | PyObject(identity: nat)

  /** `if value:` for an optional string: absent and empty are both false. */
  predicate Truthy(s: Option<string>) {
    s.Some? && s.value != ""
  }

  /** `value or fallback` for an optional string. */
  function OrElse(s: Option<string>, fallback: string): string {
    if Truthy(s) then s.value else fallback
  }

  /** `s[:n]`, which never fails on a short string. */
  function Take(s: string, n: nat): (t: string)
    ensures t <= s && |t| == if |s| <= n then |s| else n
  {
    if |s| <= n then s else s[..n]
  }

  /** `d or None` for a dictionary. */
  function NonEmpty<V>(d: map<string, V>): Option<map<string, V>> {
    if |d| == 0 then None else Some(d)
  }
}
