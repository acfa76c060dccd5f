/** Profile values, error values and the small wrappers every other module uses.

    The Go engine stores distances as float64 and uses +Inf for "no match yet".
    Here a distance is either a finite real or Inf; NaN is not modelled. */
module ProfileValues {

  /** A matrix-profile entry: a finite distance or +Inf. */
  datatype Dist = Fin(d: real) | Inf

  /** Go's `<=` on two non-NaN float64 distances, +Inf being the largest value. */
  predicate Le(x: Dist, y: Dist) {
    y.Inf? || (x.Fin? && x.d <= y.d)
  }

  /** Go's strict `<` on two non-NaN float64 distances. */
  predicate Lt(x: Dist, y: Dist) {
    !Le(y, x)
  }

  /** `math.MaxInt64`, the "unset" profile index. */
  const MaxInt64: int := 0x7fff_ffff_ffff_ffff

  /** The errors the core returns. `External` stands for an error returned by a
      collaborator that is not part of this model (z-normalization, rolling statistics). */
  datatype Error =
    | IndexBeyondSeries(idx: int, lenA: int, m: int)
    | ProfileLengthMismatch(profileLen: int, dotLen: int)
    | InvalidSample(sample: real)
    | External(code: int)

  datatype Option<T> = None | Some(value: T)

  datatype Result<T> = Ok(value: T) | Err(error: Error)

  lemma LeTotalOrder(x: Dist, y: Dist, z: Dist)
    ensures Le(x, x)
    ensures Le(x, y) || Le(y, x)
    ensures Le(x, y) && Le(y, x) ==> x == y
    ensures Le(x, y) && Le(y, z) ==> Le(x, z)
    ensures Lt(x, y) <==> Le(x, y) && x != y
  {
  }
}
