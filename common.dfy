/** Shared vocabulary: optional values, the Python exceptions the core can raise,
    Python's list indexing (negative indices count from the end) and JSON values. */
module Common {

  datatype Option<+T> = None | Some(value: T)

  /** A computation that either returns a value or raises. */
  datatype Attempt<+T> = Done(value: T) | Raised(error: PyError)

  /** The exceptions the modelled Python code raises on a malformed dict or list. */
  datatype PyError =
    | KeyError(key: string)
    | IndexError
    | TypeError
    | ValueError
    | AttributeError
    | JsonDecodeError
    | ZeroDivisionError

  /** `xs[i]` is defined in Python iff -len(xs) <= i < len(xs). */
  predicate PyIndexOk(n: nat, i: int)
  {
    -(n as int) <= i < n
  }

  /** The position Python reads for `xs[i]`. */
  function PyPos(n: nat, i: int): (p: nat)
    requires PyIndexOk(n, i)
    ensures p < n
    ensures i >= 0 ==> p == i
    ensures i < 0 ==> p + (-i) == n
  {
    if i < 0 then n + i else i
  }

  function PyAt<T>(xs: seq<T>, i: int): T
    requires PyIndexOk(|xs|, i)
  {
    xs[PyPos(|xs|, i)]
  }

  /** Python truthiness of an optional integer id: neither None nor 0. */
  predicate TruthyId(id: Option<int>)
  {
    id.Some? && id.value != 0
  }

  /** A JSON value as far as the modelled code looks at it. */
  datatype Json =
    | JNull
    | JBool(b: bool)
    | JInt(n: int)
    | JStr(s: string)
    | JCompound

  /** Python's `//` (floor division); Dafny's `/` is Euclidean and agrees only for a positive divisor. */
  function FloorDiv(a: int, b: int): (q: int)
    requires b != 0
    ensures b > 0 ==> q * b <= a < q * b + b
    ensures b < 0 ==> q * b >= a > q * b + b
  {
    if b > 0 then a / b else (-a) / (-b)
  }
}
