/** The transcendental functions the engine calls (exp, log, pow, sqrt), kept
    uninterpreted. They travel as a record of functions, and `Lawful` lists
    the only facts about them that the model relies on. */
module Transcendental {

  datatype Math = Math(
    exp: real -> real,
    log: real -> real,
    pow: (real, real) -> real,
    sqrt: real -> real)

  /** The facts the code needs: exponentials are positive, square roots of
      non-negative numbers are non-negative (positive for positive input),
      `pow(x, -1)` and `pow(x, -0.5)` invert `x` and its square root, and a
      power of a base in (0, 1) with exponent at least 1 stays in (0, 1), and
      the logarithm of a number in (0, 1] is at most 0. */
  ghost predicate Lawful(m: Math) {
    && (forall x :: m.exp(x) > 0.0)
    && (forall x :: x >= 0.0 ==> m.sqrt(x) >= 0.0)
    && (forall x :: x > 0.0 ==> m.sqrt(x) > 0.0)
    && (forall x :: x > 0.0 ==> m.pow(x, -1.0) * x == 1.0)
    && (forall x :: x > 0.0 ==> m.pow(x, -0.5) * m.pow(x, -0.5) * x == 1.0)
    && (forall b, e :: 0.0 < b < 1.0 && e >= 1.0 ==> 0.0 < m.pow(b, e) < 1.0)
    && (forall x :: 0.0 < x <= 1.0 ==> m.log(x) <= 0.0)
  }
}
