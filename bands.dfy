/**
 * The five recommendation bands that every matcher chooses its message from:
 * at least 85, at least 70, at least 50, at least 30, and the rest.
 */
module Bands {

  datatype Band = Excellent | Good | Moderate | Weak | Poor

  /** The band of a match percentage, testing the thresholds from the top down. */
  function BandOf(p: real): (b: Band)
    ensures b == Excellent <==> p >= 85.0
    ensures b == Good <==> 70.0 <= p < 85.0
    ensures b == Moderate <==> 50.0 <= p < 70.0
    ensures b == Weak <==> 30.0 <= p < 50.0
    ensures b == Poor <==> p < 30.0
  {
    if p >= 85.0 then Excellent
    else if p >= 70.0 then Good
    else if p >= 50.0 then Moderate
    else if p >= 30.0 then Weak
    else Poor
  }

  /** The order of the bands, Poor lowest. */
  function Rank(b: Band): nat
  {
    match b
    case Poor => 0
    case Weak => 1
    case Moderate => 2
    case Good => 3
    case Excellent => 4
  }

  /** A higher percentage never gets a lower band. */
  lemma BandMonotone(p: real, q: real)
    requires p <= q
    ensures Rank(BandOf(p)) <= Rank(BandOf(q))
  {
  }
}
