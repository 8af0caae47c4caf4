/** The attitude compensation of `ViewController`: the rotation matrix built from roll,
    yaw and pitch, the conversions between an aim and a unit vector, and `adjust_aim`,
    which applies the transposed rotation to the aim. */
module Rotation {
  import opened Numerics
  import opened Angles
  import opened Geodesy

  datatype Vec3 = Vec3(x: real, y: real, z: real)

  /** A 3×3 matrix, entry mij in row i and column j. */
  datatype Mat3 = Mat3(
    m00: real, m01: real, m02: real,
    m10: real, m11: real, m12: real,
    m20: real, m21: real, m22: real)

  function Dot(a: Vec3, b: Vec3): real
  {
    a.x * b.x + a.y * b.y + a.z * b.z
  }

  const IDENTITY: Mat3 := Mat3(1.0, 0.0, 0.0, 0.0, 1.0, 0.0, 0.0, 0.0, 1.0)

  function Transpose(m: Mat3): Mat3
  {
    Mat3(m.m00, m.m10, m.m20,
         m.m01, m.m11, m.m21,
         m.m02, m.m12, m.m22)
  }

  /** The matrix-vector product (numpy `.dot` with a column vector). */
  function Apply(m: Mat3, v: Vec3): Vec3
  {
    Vec3(m.m00 * v.x + m.m01 * v.y + m.m02 * v.z,
         m.m10 * v.x + m.m11 * v.y + m.m12 * v.z,
         m.m20 * v.x + m.m21 * v.y + m.m22 * v.z)
  }

  /** The matrix product (numpy `.dot` of two matrices). */
  function Mul(a: Mat3, b: Mat3): Mat3
  {
    Mat3(a.m00 * b.m00 + a.m01 * b.m10 + a.m02 * b.m20,
         a.m00 * b.m01 + a.m01 * b.m11 + a.m02 * b.m21,
         a.m00 * b.m02 + a.m01 * b.m12 + a.m02 * b.m22,
         a.m10 * b.m00 + a.m11 * b.m10 + a.m12 * b.m20,
         a.m10 * b.m01 + a.m11 * b.m11 + a.m12 * b.m21,
         a.m10 * b.m02 + a.m11 * b.m12 + a.m12 * b.m22,
         a.m20 * b.m00 + a.m21 * b.m10 + a.m22 * b.m20,
         a.m20 * b.m01 + a.m21 * b.m11 + a.m22 * b.m21,
         a.m20 * b.m02 + a.m21 * b.m12 + a.m22 * b.m22)
  }

  /** An orthogonal matrix: its transpose is its inverse on both sides. */
  predicate Orthogonal(m: Mat3)
  {
    Mul(Transpose(m), m) == IDENTITY && Mul(m, Transpose(m)) == IDENTITY
  }

  // ---- algebra of the 3×3 products

  lemma ApplyMul(a: Mat3, b: Mat3, v: Vec3)
    ensures Apply(Mul(a, b), v) == Apply(a, Apply(b, v))
  {
    var ab, bv := Mul(a, b), Apply(b, v);
    var l, r := Apply(ab, v), Apply(a, bv);
    ApplyMulRow(a.m00, a.m01, a.m02, b, v);
    assert l.x == (a.m00 * b.m00 + a.m01 * b.m10 + a.m02 * b.m20) * v.x
                + (a.m00 * b.m01 + a.m01 * b.m11 + a.m02 * b.m21) * v.y
                + (a.m00 * b.m02 + a.m01 * b.m12 + a.m02 * b.m22) * v.z;
    assert r.x == a.m00 * bv.x + a.m01 * bv.y + a.m02 * bv.z;
    ApplyMulRow(a.m10, a.m11, a.m12, b, v);
    assert l.y == (a.m10 * b.m00 + a.m11 * b.m10 + a.m12 * b.m20) * v.x
                + (a.m10 * b.m01 + a.m11 * b.m11 + a.m12 * b.m21) * v.y
                + (a.m10 * b.m02 + a.m11 * b.m12 + a.m12 * b.m22) * v.z;
    assert r.y == a.m10 * bv.x + a.m11 * bv.y + a.m12 * bv.z;
    ApplyMulRow(a.m20, a.m21, a.m22, b, v);
    assert l.z == (a.m20 * b.m00 + a.m21 * b.m10 + a.m22 * b.m20) * v.x
                + (a.m20 * b.m01 + a.m21 * b.m11 + a.m22 * b.m21) * v.y
                + (a.m20 * b.m02 + a.m21 * b.m12 + a.m22 * b.m22) * v.z;
    assert r.z == a.m20 * bv.x + a.m21 * bv.y + a.m22 * bv.z;
    assert l == Vec3(l.x, l.y, l.z) && r == Vec3(r.x, r.y, r.z);
  }

  /** One row of `ApplyMul`: the row (p, q, r) of the left factor, multiplied into `b`
      and then applied to `v`, equals that row applied to `Apply(b, v)`. */
  lemma ApplyMulRow(p: real, q: real, r: real, b: Mat3, v: Vec3)
    ensures (p * b.m00 + q * b.m10 + r * b.m20) * v.x
          + (p * b.m01 + q * b.m11 + r * b.m21) * v.y
          + (p * b.m02 + q * b.m12 + r * b.m22) * v.z
         == p * Apply(b, v).x + q * Apply(b, v).y + r * Apply(b, v).z
  {
    var bv := Apply(b, v);
    assert p * bv.x == p * b.m00 * v.x + p * b.m01 * v.y + p * b.m02 * v.z;
    assert q * bv.y == q * b.m10 * v.x + q * b.m11 * v.y + q * b.m12 * v.z;
    assert r * bv.z == r * b.m20 * v.x + r * b.m21 * v.y + r * b.m22 * v.z;
  }

  function Column(m: Mat3, j: nat): Vec3
    requires j < 3
  {
    if j == 0 then Vec3(m.m00, m.m10, m.m20)
    else if j == 1 then Vec3(m.m01, m.m11, m.m21)
    else Vec3(m.m02, m.m12, m.m22)
  }

  /** Column j of a product is the left factor applied to column j of the right one. */
  lemma ColumnMul(a: Mat3, b: Mat3, j: nat)
    requires j < 3
    ensures Column(Mul(a, b), j) == Apply(a, Column(b, j))
  {
    if j == 0 {
    } else if j == 1 {
    } else {
    }
  }

  lemma ColumnsEqual(m: Mat3, n: Mat3)
    requires Column(m, 0) == Column(n, 0) && Column(m, 1) == Column(n, 1) && Column(m, 2) == Column(n, 2)
    ensures m == n
  {
  }

  lemma MulAssoc(a: Mat3, b: Mat3, c: Mat3)
    ensures Mul(Mul(a, b), c) == Mul(a, Mul(b, c))
  {
    forall j: nat | j < 3
      ensures Column(Mul(Mul(a, b), c), j) == Column(Mul(a, Mul(b, c)), j)
    {
      ColumnMul(Mul(a, b), c, j);
      ApplyMul(a, b, Column(c, j));
      ColumnMul(b, c, j);
      ColumnMul(a, Mul(b, c), j);
    }
    ColumnsEqual(Mul(Mul(a, b), c), Mul(a, Mul(b, c)));
  }

  lemma TransposeMul(a: Mat3, b: Mat3)
    ensures Transpose(Mul(a, b)) == Mul(Transpose(b), Transpose(a))
  {
    Comm3(a.m00, a.m01, a.m02, b.m00, b.m10, b.m20);
    Comm3(a.m10, a.m11, a.m12, b.m00, b.m10, b.m20);
    Comm3(a.m20, a.m21, a.m22, b.m00, b.m10, b.m20);
    Comm3(a.m00, a.m01, a.m02, b.m01, b.m11, b.m21);
    Comm3(a.m10, a.m11, a.m12, b.m01, b.m11, b.m21);
    Comm3(a.m20, a.m21, a.m22, b.m01, b.m11, b.m21);
    Comm3(a.m00, a.m01, a.m02, b.m02, b.m12, b.m22);
    Comm3(a.m10, a.m11, a.m12, b.m02, b.m12, b.m22);
    Comm3(a.m20, a.m21, a.m22, b.m02, b.m12, b.m22);
  }

  lemma Comm3(p0: real, p1: real, p2: real, q0: real, q1: real, q2: real)
    ensures p0 * q0 + p1 * q1 + p2 * q2 == q0 * p0 + q1 * p1 + q2 * p2
  {
  }

  lemma MulIdentity(m: Mat3)
    ensures Mul(IDENTITY, m) == m && Mul(m, IDENTITY) == m
  {
  }

  lemma ApplyIdentity(v: Vec3)
    ensures Apply(IDENTITY, v) == v
  {
  }

  /** The transpose is the adjoint of a matrix for the dot product. */
  lemma DotTranspose(m: Mat3, u: Vec3, w: Vec3)
    ensures Dot(Apply(Transpose(m), u), w) == Dot(u, Apply(m, w))
  {
    var t := Apply(Transpose(m), u);
    var v := Apply(m, w);
    // both sides are the sum of m[i][j] * u[i] * w[j] over all nine entries
    var terms :=
        m.m00 * u.x * w.x + m.m10 * u.y * w.x + m.m20 * u.z * w.x
      + m.m01 * u.x * w.y + m.m11 * u.y * w.y + m.m21 * u.z * w.y
      + m.m02 * u.x * w.z + m.m12 * u.y * w.z + m.m22 * u.z * w.z;
    assert t.x * w.x == m.m00 * u.x * w.x + m.m10 * u.y * w.x + m.m20 * u.z * w.x;
    assert t.y * w.y == m.m01 * u.x * w.y + m.m11 * u.y * w.y + m.m21 * u.z * w.y;
    assert t.z * w.z == m.m02 * u.x * w.z + m.m12 * u.y * w.z + m.m22 * u.z * w.z;
    assert u.x * v.x == m.m00 * u.x * w.x + m.m01 * u.x * w.y + m.m02 * u.x * w.z;
    assert u.y * v.y == m.m10 * u.y * w.x + m.m11 * u.y * w.y + m.m12 * u.y * w.z;
    assert u.z * v.z == m.m20 * u.z * w.x + m.m21 * u.z * w.y + m.m22 * u.z * w.z;
    assert Dot(t, w) == terms;
    assert Dot(u, v) == terms;
  }

  /** A product of orthogonal matrices is orthogonal. */
  lemma OrthogonalMul(a: Mat3, b: Mat3)
    requires Orthogonal(a) && Orthogonal(b)
    ensures Orthogonal(Mul(a, b))
  {
    var ab := Mul(a, b);
    TransposeMul(a, b);
    calc {
      Mul(Transpose(ab), ab);
      Mul(Mul(Transpose(b), Transpose(a)), Mul(a, b));
      { MulAssoc(Transpose(b), Transpose(a), Mul(a, b)); }
      Mul(Transpose(b), Mul(Transpose(a), Mul(a, b)));
      { MulAssoc(Transpose(a), a, b); }
      Mul(Transpose(b), Mul(IDENTITY, b));
      { MulIdentity(b); }
      IDENTITY;
    }
    calc {
      Mul(ab, Transpose(ab));
      Mul(Mul(a, b), Mul(Transpose(b), Transpose(a)));
      { MulAssoc(a, b, Mul(Transpose(b), Transpose(a))); }
      Mul(a, Mul(b, Mul(Transpose(b), Transpose(a))));
      { MulAssoc(b, Transpose(b), Transpose(a)); }
      Mul(a, Mul(IDENTITY, Transpose(a)));
      { MulIdentity(Transpose(a)); }
      IDENTITY;
    }
  }

  // ---- the elementary rotations of `rotation_matrix`, from a cosine c and a sine s

  /** Roll: rotation about the y-axis. */
  function RollMatrix(c: real, s: real): Mat3
  {
    Mat3(c, 0.0, s, 0.0, 1.0, 0.0, -s, 0.0, c)
  }

  /** Yaw: rotation about the z-axis, clockwise seen from above. */
  function YawMatrix(c: real, s: real): Mat3
  {
    Mat3(c, s, 0.0, -s, c, 0.0, 0.0, 0.0, 1.0)
  }

  /** Pitch: rotation about the x-axis. */
  function PitchMatrix(c: real, s: real): Mat3
  {
    Mat3(1.0, 0.0, 0.0, 0.0, c, -s, 0.0, s, c)
  }

  lemma RollOrthogonal(c: real, s: real)
    requires c * c + s * s == 1.0
    ensures Orthogonal(RollMatrix(c, s))
  {
    var m := RollMatrix(c, s);
    assert s * s == 1.0 - c * c;
    assert Mul(Transpose(m), m) == IDENTITY;
    assert Mul(m, Transpose(m)) == IDENTITY;
  }

  lemma YawOrthogonal(c: real, s: real)
    requires c * c + s * s == 1.0
    ensures Orthogonal(YawMatrix(c, s))
  {
    var m := YawMatrix(c, s);
    assert s * s == 1.0 - c * c;
    assert Mul(Transpose(m), m) == IDENTITY;
    assert Mul(m, Transpose(m)) == IDENTITY;
  }

  lemma PitchOrthogonal(c: real, s: real)
    requires c * c + s * s == 1.0
    ensures Orthogonal(PitchMatrix(c, s))
  {
    var m := PitchMatrix(c, s);
    assert s * s == 1.0 - c * c;
    assert Mul(Transpose(m), m) == IDENTITY;
    assert Mul(m, Transpose(m)) == IDENTITY;
  }

  /** `rotation_matrix(roll, yaw, pitch)`: yaw · pitch · roll, angles in degrees. */
  function RotationMatrix(lib: MathLib, roll: real, yaw: real, pitch: real): (m: Mat3)
    // yaw turns about the vertical axis, so the vertical row depends on roll and pitch only
    ensures m.m20 == -lib.cos(Deg2Rad(pitch)) * lib.sin(Deg2Rad(roll))
    ensures m.m21 == lib.sin(Deg2Rad(pitch))
    ensures m.m22 == lib.cos(Deg2Rad(pitch)) * lib.cos(Deg2Rad(roll))
  {
    var rollRad := Deg2Rad(roll);
    var yawRad := Deg2Rad(yaw);
    var pitchRad := Deg2Rad(pitch);
    Mul(YawMatrix(lib.cos(yawRad), lib.sin(yawRad)),
        Mul(PitchMatrix(lib.cos(pitchRad), lib.sin(pitchRad)),
            RollMatrix(lib.cos(rollRad), lib.sin(rollRad))))
  }

  /** yaw · pitch · roll is orthogonal whenever each (cosine, sine) pair lies on the unit circle. */
  lemma ComposedOrthogonal(cr: real, sr: real, cy: real, sy: real, cp: real, sp: real)
    requires cr * cr + sr * sr == 1.0 && cy * cy + sy * sy == 1.0 && cp * cp + sp * sp == 1.0
    ensures Orthogonal(Mul(YawMatrix(cy, sy), Mul(PitchMatrix(cp, sp), RollMatrix(cr, sr))))
  {
    RollOrthogonal(cr, sr);
    YawOrthogonal(cy, sy);
    PitchOrthogonal(cp, sp);
    OrthogonalMul3(YawMatrix(cy, sy), PitchMatrix(cp, sp), RollMatrix(cr, sr));
  }

  lemma OrthogonalMul3(a: Mat3, b: Mat3, c: Mat3)
    requires Orthogonal(a) && Orthogonal(b) && Orthogonal(c)
    ensures Orthogonal(Mul(a, Mul(b, c)))
  {
    OrthogonalMul(b, c);
    OrthogonalMul(a, Mul(b, c));
  }

  /** When the sine and cosine routines satisfy the Pythagorean identity at the three
      angles, the attitude matrix is a rotation, so its inverse is its transpose. */
  lemma RotationMatrixOrthogonal(lib: MathLib, roll: real, yaw: real, pitch: real)
    requires Pythagorean(lib, Deg2Rad(roll))
    requires Pythagorean(lib, Deg2Rad(yaw))
    requires Pythagorean(lib, Deg2Rad(pitch))
    ensures Orthogonal(RotationMatrix(lib, roll, yaw, pitch))
  {
    var rollRad, yawRad, pitchRad := Deg2Rad(roll), Deg2Rad(yaw), Deg2Rad(pitch);
    ComposedOrthogonal(lib.cos(rollRad), lib.sin(rollRad), lib.cos(yawRad), lib.sin(yawRad),
                       lib.cos(pitchRad), lib.sin(pitchRad));
  }

  /** With sin 0 = 0 and cos 0 = 1, a level drone has the identity attitude. */
  lemma LevelAttitudeIsIdentity(lib: MathLib)
    requires lib.sin(0.0) == 0.0 && lib.cos(0.0) == 1.0
    ensures RotationMatrix(lib, 0.0, 0.0, 0.0) == IDENTITY
  {
    assert Deg2Rad(0.0) == 0.0;
    assert RollMatrix(lib.cos(0.0), lib.sin(0.0)) == IDENTITY;
    assert PitchMatrix(lib.cos(0.0), lib.sin(0.0)) == IDENTITY;
    assert YawMatrix(lib.cos(0.0), lib.sin(0.0)) == IDENTITY;
    MulIdentity(IDENTITY);
  }

  // ---- aim directions

  /** `angular_to_spherical`: the unit vector (east, north, up) of an aim in degrees. */
  function AngularToSpherical(lib: MathLib, theta: real, phi: real): (v: Vec3)
    // the horizontal part lies on the line of bearing phi
    ensures v.x * lib.cos(Deg2Rad(phi)) == v.y * lib.sin(Deg2Rad(phi))
    ensures Pythagorean(lib, Deg2Rad(phi)) ==>
      v.x * lib.sin(Deg2Rad(phi)) + v.y * lib.cos(Deg2Rad(phi)) == lib.sin(Deg2Rad(theta))
    // and its length is the sine of theta
    ensures Pythagorean(lib, Deg2Rad(phi)) ==>
      v.x * v.x + v.y * v.y == lib.sin(Deg2Rad(theta)) * lib.sin(Deg2Rad(theta))
  {
    var thetaRad := Deg2Rad(theta);
    var phiRad := Deg2Rad(phi);
    Vec3(lib.sin(thetaRad) * lib.sin(phiRad),
         lib.sin(thetaRad) * lib.cos(phiRad),
         -lib.cos(thetaRad))
  }

  /** `spherical_to_angular`: theta from `arccos(-z)`, the bearing from `arctan2(x, y) % 360`. */
  function SphericalToAngular(lib: MathLib, v: Vec3): (r: Angular)
    ensures 0.0 <= r.phi < 360.0
  {
    var phi := lib.arctan2(v.x, v.y);
    var theta := lib.arccos(-v.z);
    Angular(Rad2Deg(theta), Mod360(Rad2Deg(phi)))
  }

  lemma SphericalIsUnit(lib: MathLib, theta: real, phi: real)
    requires Pythagorean(lib, Deg2Rad(theta)) && Pythagorean(lib, Deg2Rad(phi))
    ensures var v := AngularToSpherical(lib, theta, phi); Dot(v, v) == 1.0
  {
    var st, ct := lib.sin(Deg2Rad(theta)), lib.cos(Deg2Rad(theta));
    var sp, cp := lib.sin(Deg2Rad(phi)), lib.cos(Deg2Rad(phi));
    assert (st * sp) * (st * sp) + (st * cp) * (st * cp) == (st * st) * (sp * sp + cp * cp);
  }

  /** The body-frame aim vector: the transposed attitude applied to the world-frame aim. */
  function CompensatedVector(lib: MathLib, roll: real, yaw: real, pitch: real, theta: real, phi: real): Vec3
  {
    Apply(Transpose(RotationMatrix(lib, roll, yaw, pitch)), AngularToSpherical(lib, theta, phi))
  }

  /** `adjust_aim`: the body-frame aim that corresponds to a world-frame aim under the
      attitude (roll, yaw, pitch); the bearing is always a remainder in [0, 360). */
  function AdjustAim(lib: MathLib, roll: real, yaw: real, pitch: real, theta: real, phi: real): (r: Angular)
    ensures 0.0 <= r.phi < 360.0
  {
    SphericalToAngular(lib, CompensatedVector(lib, roll, yaw, pitch, theta, phi))
  }

  /** A rotation preserves length, so the compensated vector is a unit vector and the
      argument handed to `arccos` lies in [-1, 1]. */
  lemma CompensatedVectorIsUnit(lib: MathLib, roll: real, yaw: real, pitch: real, theta: real, phi: real)
    requires Pythagorean(lib, Deg2Rad(roll)) && Pythagorean(lib, Deg2Rad(yaw)) && Pythagorean(lib, Deg2Rad(pitch))
    requires Pythagorean(lib, Deg2Rad(theta)) && Pythagorean(lib, Deg2Rad(phi))
    ensures var v := CompensatedVector(lib, roll, yaw, pitch, theta, phi); Dot(v, v) == 1.0
    ensures -1.0 <= -CompensatedVector(lib, roll, yaw, pitch, theta, phi).z <= 1.0
  {
    var m := RotationMatrix(lib, roll, yaw, pitch);
    var u := AngularToSpherical(lib, theta, phi);
    var v := Apply(Transpose(m), u);
    RotationMatrixOrthogonal(lib, roll, yaw, pitch);
    SphericalIsUnit(lib, theta, phi);
    calc {
      Dot(v, v);
      { DotTranspose(m, u, v); }
      Dot(u, Apply(m, v));
      { ApplyMul(m, Transpose(m), u); }
      Dot(u, Apply(Mul(m, Transpose(m)), u));
      { ApplyIdentity(u); }
      1.0;
    }
    UnitBound(v);
  }

  lemma UnitBound(v: Vec3)
    requires Dot(v, v) == 1.0
    ensures -1.0 <= v.z <= 1.0
  {
    assert v.x * v.x >= 0.0 && v.y * v.y >= 0.0;
    assert v.z * v.z <= 1.0;
  }

  /** Compensation undoes the attitude: a body-frame direction rotated into the world
      frame by the attitude matrix is recovered by applying the transpose. */
  lemma CompensationUndoesRotation(lib: MathLib, roll: real, yaw: real, pitch: real, body: Vec3)
    requires Pythagorean(lib, Deg2Rad(roll)) && Pythagorean(lib, Deg2Rad(yaw)) && Pythagorean(lib, Deg2Rad(pitch))
    ensures var m := RotationMatrix(lib, roll, yaw, pitch); Apply(Transpose(m), Apply(m, body)) == body
  {
    var m := RotationMatrix(lib, roll, yaw, pitch);
    RotationMatrixOrthogonal(lib, roll, yaw, pitch);
    ApplyMul(Transpose(m), m, body);
    ApplyIdentity(body);
  }

  /** For a level drone, compensation is the plain round trip through the unit vector. */
  lemma LevelAdjustAim(lib: MathLib, theta: real, phi: real)
    requires lib.sin(0.0) == 0.0 && lib.cos(0.0) == 1.0
    ensures AdjustAim(lib, 0.0, 0.0, 0.0, theta, phi) == SphericalToAngular(lib, AngularToSpherical(lib, theta, phi))
  {
    LevelAttitudeIsIdentity(lib);
    ApplyIdentity(AngularToSpherical(lib, theta, phi));
  }

  /** `spherical_to_angular` inverts `angular_to_spherical` for a bearing in [0, 360)
      wherever `arccos` inverts the cosine at theta and `arctan2` recovers the bearing
      from its two components up to `k` whole turns (an `arctan2` with values in
      [-pi, pi] gives `k == 1` for bearings past half a turn); the `% 360` of the
      bearing removes those turns. */
  lemma SphericalRoundTrip(lib: MathLib, theta: real, phi: real, k: int)
    requires 0.0 <= phi < 360.0
    requires lib.arccos(lib.cos(Deg2Rad(theta))) == Deg2Rad(theta)
    requires lib.arctan2(lib.sin(Deg2Rad(theta)) * lib.sin(Deg2Rad(phi)),
                         lib.sin(Deg2Rad(theta)) * lib.cos(Deg2Rad(phi))) == Deg2Rad(phi - 360.0 * k as real)
    ensures SphericalToAngular(lib, AngularToSpherical(lib, theta, phi)) == Angular(theta, phi)
  {
    var v := AngularToSpherical(lib, theta, phi);
    assert lib.arccos(-v.z) == Deg2Rad(theta);
    assert v.x == lib.sin(Deg2Rad(theta)) * lib.sin(Deg2Rad(phi));
    assert v.y == lib.sin(Deg2Rad(theta)) * lib.cos(Deg2Rad(phi));
    var turned := phi - 360.0 * k as real;
    assert lib.arctan2(v.x, v.y) == Deg2Rad(turned);
    RadDegRoundTrip(theta);
    RadDegRoundTrip(turned);
    Mod360Periodic(turned, k);
    assert turned + 360.0 * k as real == phi;
    assert Mod360(phi) == phi;
  }

  /** A level drone looks where the operator asks: under the same conditions as the
      round trip, compensation with zero roll, yaw and pitch returns the aim unchanged. */
  lemma LevelAimUnchanged(lib: MathLib, theta: real, phi: real, k: int)
    requires lib.sin(0.0) == 0.0 && lib.cos(0.0) == 1.0
    requires 0.0 <= phi < 360.0
    requires lib.arccos(lib.cos(Deg2Rad(theta))) == Deg2Rad(theta)
    requires lib.arctan2(lib.sin(Deg2Rad(theta)) * lib.sin(Deg2Rad(phi)),
                         lib.sin(Deg2Rad(theta)) * lib.cos(Deg2Rad(phi))) == Deg2Rad(phi - 360.0 * k as real)
    ensures AdjustAim(lib, 0.0, 0.0, 0.0, theta, phi) == Angular(theta, phi)
  {
    LevelAdjustAim(lib, theta, phi);
    SphericalRoundTrip(lib, theta, phi, k);
  }
}
