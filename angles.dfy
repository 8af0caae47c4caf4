/** Angle conversions of `ViewController` (`deg2rad`, `rad2deg`) and the
    Python float remainder `% 360` applied to every bearing it returns. */
module Angles {

  /** Multiplies by the factor `DEG_IN_RED`, written out as 0.0174532925 (an approximation
      of pi / 180); the sign of the angle is kept. */
  function Deg2Rad(degrees: real): (r: real)
    ensures degrees > 0.0 ==> r > 0.0
    ensures degrees < 0.0 ==> r < 0.0
    ensures degrees == 0.0 ==> r == 0.0
  {
    0.0174532925 * degrees
  }

  /** Divides by the constant factor: exactly undoes `Deg2Rad`. */
  function Rad2Deg(radians: real): (r: real)
    ensures Deg2Rad(r) == radians
  {
    radians / 0.0174532925
  }

  lemma RadDegRoundTrip(degrees: real)
    ensures Rad2Deg(Deg2Rad(degrees)) == degrees
  {
  }

  /** Both conversions are additive, so an offset in radians is the same offset in degrees. */
  lemma Rad2DegAdditive(a: real, b: real)
    ensures Rad2Deg(a + b) == Rad2Deg(a) + Rad2Deg(b)
  {
  }

  /** Python's `x % 360` on floats: the remainder of flooring division, which is
      never negative for a positive modulus. */
  function Mod360(x: real): (r: real)
    ensures 0.0 <= r < 360.0
    ensures 0.0 <= x < 360.0 ==> r == x
  {
    x - 360.0 * (x / 360.0).Floor as real
  }

  /** Adding whole turns does not change the remainder. */
  lemma Mod360Periodic(x: real, k: int)
    ensures Mod360(x + 360.0 * k as real) == Mod360(x)
  {
    var q := (x / 360.0).Floor;
    assert (x + 360.0 * k as real) / 360.0 == x / 360.0 + k as real;
    FloorShift(x / 360.0, k);
  }

  lemma FloorShift(y: real, k: int)
    ensures (y + k as real).Floor == y.Floor + k
  {
    var f := y.Floor;
    assert f as real <= y < f as real + 1.0;
    assert (f + k) as real <= y + k as real < (f + k) as real + 1.0;
  }

  /** The remainder differs from its argument by whole turns. */
  lemma Mod360WholeTurns(x: real)
    ensures (x - Mod360(x)) / 360.0 == ((x / 360.0).Floor) as real
  {
  }

  /** Taking the remainder twice changes nothing. */
  lemma Mod360Idempotent(x: real)
    ensures Mod360(Mod360(x)) == Mod360(x)
  {
  }
}
