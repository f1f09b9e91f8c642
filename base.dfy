/** Failure-carrying values and number conversions shared by every module of the model. */
module Base {

  /** A value that may be absent: a missing dictionary key, a JSON null, an empty bucket. */
  datatype Option<+T> = None | Some(value: T)

  /** The outcome of an operation that the source can abort by raising or returning an error. */
  datatype Result<+T, +E> = Ok(value: T) | Err(error: E)

  /** Nanoseconds in one second: timestamps are nanosecond integers throughout. */
  const NanosPerSecond := 1_000_000_000

  /**
   * Position of the first occurrence of `x` in `s`: the separator a split
   * stops at, or the row `iloc[0]` picks among the rows holding a value.
   */
  function IndexOf<T(==)>(s: seq<T>, x: T): (k: nat)
    requires x in s
    ensures k < |s| && s[k] == x
    ensures forall j :: 0 <= j < k ==> s[j] != x
  {
    if s[0] == x then 0 else 1 + IndexOf(s[1..], x)
  }

  /**
   * Conversion of a real to an integer by dropping the fraction, toward zero:
   * numpy's `astype('int64')` and Go's `int(float64)`.
   */
  function Truncate(x: real): (n: int)
    ensures x >= 0.0 ==> n as real <= x < n as real + 1.0
    ensures x < 0.0 ==> n as real - 1.0 < x <= n as real
  {
    if x >= 0.0 then x.Floor else -((-x).Floor)
  }

  lemma TruncateMonotone(x: real, y: real)
    requires x <= y
    ensures Truncate(x) <= Truncate(y)
  {
  }

  lemma TruncateOfInteger(n: int)
    ensures Truncate(n as real) == n
  {
  }
}
