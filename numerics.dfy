/** The floating-point routines the view controller calls but whose code is not
    part of this model: the Taylor-series approximations of `vgc.taylor_math_functions`
    (`tan`, `sin`, `cos`, `arctan`, `arccos`), numpy's `arctan2` and the `** 0.5`
    square root. They are handed to the model as a record of function values, so
    nothing proved here depends on what they compute. */
module Numerics {

  datatype MathLib = MathLib(
    sin: real -> real,
    cos: real -> real,
    tan: real -> real,
    arctan: real -> real,
    arccos: real -> real,
    arctan2: (real, real) -> real,
    sqrt: real -> real)

  /** The result of an expression that divides: Python raises `ZeroDivisionError`
      when a float is divided by zero. */
  datatype Outcome<T> = Value(value: T) | ZeroDivision

  /** The Pythagorean identity, which the Taylor approximations need not satisfy
      exactly; lemmas that rely on it say so in their preconditions. */
  predicate Pythagorean(lib: MathLib, a: real)
  {
    lib.sin(a) * lib.sin(a) + lib.cos(a) * lib.cos(a) == 1.0
  }
}
