/**
 * Bound classification: which MOSEK bound key a (lower, upper) limit pair of a
 * variable or a constraint row is registered with.
 */
module Bounds {

  import opened Wrappers

  /** The five MOSEK bound keys: fixed, ranged, lower only, upper only, free. */
  datatype BoundKey = Fx | Ra | Lo | Up | Fr

  /** The bound keys under which the solver reads the lower limit. */
  predicate ReadsLower(k: BoundKey)
  {
    k == Fx || k == Ra || k == Lo
  }

  /** The bound keys under which the solver reads the upper limit. */
  predicate ReadsUpper(k: BoundKey)
  {
    k == Fx || k == Ra || k == Up
  }

  /**
   * The classification of a limit pair: presence of each side first, then
   * exact numeric equality of the two (no tolerance) to tell fixed from ranged.
   */
  function GetBoundKey(lower: Option<real>, upper: Option<real>): (k: BoundKey)
    ensures k == Fx <==> lower.Some? && upper.Some? && lower.value == upper.value
    ensures k == Ra <==> lower.Some? && upper.Some? && lower.value != upper.value
    ensures k == Lo <==> lower.Some? && upper.None?
    ensures k == Up <==> lower.None? && upper.Some?
    ensures k == Fr <==> lower.None? && upper.None?
  {
    if lower.Some? then
      if upper.Some? then
        if lower.value == upper.value then Fx else Ra
      else
        Lo
    else
      if upper.Some? then Up else Fr
  }

  /**
   * The key tells the solver exactly which sides are present: a side is read
   * if and only if the host supplied it.
   */
  lemma BoundKeyKeepsSides(lower: Option<real>, upper: Option<real>)
    ensures ReadsLower(GetBoundKey(lower, upper)) <==> lower.Some?
    ensures ReadsUpper(GetBoundKey(lower, upper)) <==> upper.Some?
  {
  }

}
