/** Temperatures as the thermocouple reader produces them: a finite reading or
    the +infinity that signals an open-circuit sensor. */
module Temperature {

  /** A reading in degrees Celsius. `PosInf` stands for the float +infinity the
      firmware returns for a sample at or above the ADC ceiling. */
  datatype Temp = Fin(r: real) | PosInf

  /** `a < b` as the firmware's float comparison evaluates it, with +infinity
      above every finite value and not below itself. */
  predicate Less(a: Temp, b: Temp) {
    match a
    case PosInf => false
    case Fin(x) => b.PosInf? || x < b.r
  }

  /** `a <= b`: the negation of `b < a`, which is the float `<=` on non-NaN values. */
  predicate AtMost(a: Temp, b: Temp) {
    !Less(b, a)
  }

  /** `Less` is a strict total order: irreflexive, transitive and total. */
  lemma LessIsStrictTotalOrder(a: Temp, b: Temp, c: Temp)
    ensures !Less(a, a)
    ensures Less(a, b) && Less(b, c) ==> Less(a, c)
    ensures a == b || Less(a, b) || Less(b, a)
  {
  }

  /** `if (t > hi) hi = t;`: the larger of the running maximum and a new reading. */
  function Raise(hi: Temp, t: Temp): (r: Temp)
    ensures AtMost(hi, r) && AtMost(t, r)
    ensures r == hi || r == t
  {
    if Less(hi, t) then t else hi
  }

  /** `if (t < lo) lo = t;`: the smaller of the running minimum and a new reading. */
  function Lower(lo: Temp, t: Temp): (r: Temp)
    ensures AtMost(r, lo) && AtMost(r, t)
    ensures r == lo || r == t
  {
    if Less(t, lo) then t else lo
  }
}
