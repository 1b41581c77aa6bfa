/** Floats as the source compares them: a finite real or one of the two
    infinities (`float('-inf')`, `float('inf')`). */
module ExtendedReals {

  datatype ExtReal = NegInf | Fin(r: real) | PosInf

  /** Python's `a < b` on floats that are not NaN. */
  predicate Less(a: ExtReal, b: ExtReal) {
    match (a, b)
    case (NegInf, NegInf) => false
    case (NegInf, _) => true
    case (Fin(x), Fin(y)) => x < y
    case (Fin(_), PosInf) => true
    case (_, _) => false
  }

  /** The chained comparison `lo < x < hi`: x lies in the open interval (lo, hi). */
  predicate Inside(x: ExtReal, lo: ExtReal, hi: ExtReal) {
    Less(lo, x) && Less(x, hi)
  }

  /** `Less` is transitive. */
  lemma LessTransitive(a: ExtReal, b: ExtReal, c: ExtReal)
    requires Less(a, b) && Less(b, c)
    ensures Less(a, c)
  {
  }
}
