/**
 * The C math library as the particle system uses it. Every transcendental
 * function is a parameter (a `Math` record of real functions), so nothing is
 * assumed about it beyond the laws a lemma states it needs. Floating-point
 * rounding is not modelled: all arithmetic is over `real`.
 */
module RealMath {

  /** std::sqrt, std::log, std::cos, std::sin, std::atan and glm::inversesqrt. */
  datatype Math = Math(
    sqrt: real -> real,
    log: real -> real,
    cos: real -> real,
    sin: real -> real,
    atan: real -> real,
    inverseSqrt: real -> real)

  /** sqrt of a non-negative number is its non-negative square root. */
  ghost predicate SqrtLaw(m: Math) {
    forall x :: 0.0 <= x ==> 0.0 <= m.sqrt(x) && m.sqrt(x) * m.sqrt(x) == x
  }

  /** cos² + sin² = 1 at every angle. */
  ghost predicate PythagoreanLaw(m: Math) {
    forall a :: m.cos(a) * m.cos(a) + m.sin(a) * m.sin(a) == 1.0
  }

  /** The constant PI both random.cpp and galaxy.cpp declare. */
  const PI: real := 3.141592

  /** std::atan of +infinity: pi/2 rounded to single precision. */
  const ATAN_OF_INFINITY: real := 1.57079637050628662109375
}
