// The rainfall-likelihood labels both pipelines assign to a region, and the
// order in which their reports list them.

module Rain {

  datatype Likelihood = High | Moderate | Low | Unlikely

  /** The report order `{'HIGH': 0, 'MODERATE': 1, 'LOW': 2, 'UNLIKELY': 3}`. */
  function Rank(l: Likelihood): (r: nat)
    ensures r <= 3
  {
    match l
    case High => 0
    case Moderate => 1
    case Low => 2
    case Unlikely => 3
  }

  /** A pixel position `(x, y)`: column, then row. */
  datatype Pixel = Pixel(x: int, y: int)
}
