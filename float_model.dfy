/**
  The floating-point primitives the annealer relies on, kept abstract. Exact
  reals stand for the values of type T; std::exp, std::log and std::pow are
  uninterpreted functions; a division whose divisor may be zero goes through
  quot, because IEEE division by zero yields an infinity or NaN rather
  than a real. max, lowest and epsilon stand for std::numeric_limits<T>.
 */
module FloatModel {

  datatype FloatOps = FloatOps(
    exp: real -> real,
    log: real -> real,
    pow: (real, real) -> real,
    quot: (real, real) -> real,
    nonFinite: real -> bool,
    max: real,
    lowest: real,
    epsilon: real)
  {
    /** exp never returns a negative value or zero (ignoring underflow). */
    ghost predicate ExpPositive()
    {
      forall r :: exp(r) > 0.0
    }

    /** exp is at least 1 at non-negative arguments. */
    ghost predicate ExpAtLeastOneAboveZero()
    {
      forall r :: r >= 0.0 ==> exp(r) >= 1.0
    }

    /** Division by a non-zero divisor is exact division. */
    ghost predicate QuotExact()
    {
      forall a, b :: b != 0.0 ==> quot(a, b) == a / b
    }

    /** A base of at least 1 raised to a non-negative power is at least 1. */
    ghost predicate PowAtLeastOne()
    {
      forall b, e :: b >= 1.0 && e >= 0.0 ==> pow(b, e) >= 1.0
    }

    /** The properties of IEEE arithmetic the lemmas of this model rely on. */
    ghost predicate Sound()
    {
      && ExpPositive()
      && ExpAtLeastOneAboveZero()
      && QuotExact()
      && PowAtLeastOne()
      && epsilon > 0.0
      && lowest < max
    }
  }
}
