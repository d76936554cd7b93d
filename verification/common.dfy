/** Shared vocabulary of the labeler: optional and fallible results, the
    twelve-field bar row and the positions of the price fields in it. */
module Common {

  /** An optional value; `None` stands for the source's `-1` sentinel. */
  datatype Option<+T> = None | Some(value: T)

  /** A value or the reason it could not be produced. */
  datatype Result<+T, +E> = Success(value: T) | Failure(error: E)

  /** One bar of market data: twelve numeric fields in fixed positional order. */
  type Row = seq<real>

  const NumFields: nat := 12
  const OpenField: nat := 1
  const HighField: nat := 2
  const LowField: nat := 3
  const CloseField: nat := 4

  /** Every row of the series has exactly the twelve fields. */
  predicate WellFormed(data: seq<Row>)
  {
    forall r :: 0 <= r < |data| ==> |data[r]| == NumFields
  }

  function Max(a: real, b: real): real
  {
    if a >= b then a else b
  }

  function Min(a: real, b: real): real
  {
    if a <= b then a else b
  }

  /** A sequence of `n` copies of `zero`, the source's `[0 for i in range(n)]`. */
  function Zeros<T>(n: nat, zero: T): (z: seq<T>)
    ensures |z| == n
    ensures forall k :: 0 <= k < n ==> z[k] == zero
  {
    seq(n, _ => zero)
  }
}
