/** The vector and matrix algebra of SiMath.h that the stent pipeline uses,
    modelled over exact reals. The C math library functions (sin, cos, acos,
    sqrt) are not computed: they are carried as function values, and the
    facts the code relies on are stated as predicates that a lemma may
    require. */
module SiMath {

  /** ivPI, ivTWOPI and Eps. */
  const Pi: real := 3.141592653589793
  const TwoPi: real := 2.0 * Pi
  const Eps: real := 0.000000001

  /** The math library functions the code calls, left uninterpreted. */
  datatype Numerics = Numerics(sin: real -> real, cos: real -> real, acos: real -> real, sqrt: real -> real)
  {
    /** sqrt returns the non-negative root of a non-negative argument. */
    ghost predicate SqrtExact() {
      forall a: real :: 0.0 <= a ==> 0.0 <= sqrt(a) && sqrt(a) * sqrt(a) == a
    }

    /** acos maps [-1, 1] into [0, pi]. */
    ghost predicate AcosInRange() {
      forall c: real :: -1.0 <= c <= 1.0 ==> 0.0 <= acos(c) <= Pi
    }

    /** sin and cos of one angle lie on the unit circle. */
    ghost predicate Pythagorean() {
      forall a: real :: sin(a) * sin(a) + cos(a) * cos(a) == 1.0
    }
  }

  /** IsZero: strictly inside (-Eps, Eps). */
  predicate IsZero(v: real) {
    v < Eps && v > -Eps
  }

  // ---------------------------------------------------------------- Vector3

  datatype Vector3 = Vector3(x: real, y: real, z: real)

  const Zero3: Vector3 := Vector3(0.0, 0.0, 0.0)

  /** operator + */
  function Add(a: Vector3, b: Vector3): Vector3 {
    Vector3(a.x + b.x, a.y + b.y, a.z + b.z)
  }

  /** operator - */
  function Sub(a: Vector3, b: Vector3): Vector3 {
    Vector3(a.x - b.x, a.y - b.y, a.z - b.z)
  }

  /** operator * (Vector3, Type): scaling by a scalar */
  function Scale(a: Vector3, s: real): Vector3 {
    Vector3(a.x * s, a.y * s, a.z * s)
  }

  function Square(v: Vector3): real {
    v.x * v.x + v.y * v.y + v.z * v.z
  }

  function Dot(a: Vector3, b: Vector3): real {
    a.x * b.x + a.y * b.y + a.z * b.z
  }

  function Cross(a: Vector3, b: Vector3): Vector3 {
    Vector3(a.y * b.z - b.y * a.z,
            b.x * a.z - a.x * b.z,
            a.x * b.y - b.x * a.y)
  }

  function Length(lib: Numerics, v: Vector3): real {
    lib.sqrt(Square(v))
  }

  /** normalize: multiply by the reciprocal of the length. A zero length
      (a NaN in the source) is excluded by the precondition. */
  function Normalize(lib: Numerics, v: Vector3): Vector3
    requires Length(lib, v) != 0.0
  {
    var rlen := 1.0 / Length(lib, v);
    Scale(v, rlen)
  }

  /** Vector3::operator<, lexicographic on (x, y, z). */
  predicate Less(a: Vector3, b: Vector3) {
    a.x < b.x
    || (a.x == b.x && a.y < b.y)
    || (a.x == b.x && a.y == b.y && a.z < b.z)
  }

  lemma CrossOrthogonal(a: Vector3, b: Vector3)
    ensures Dot(Cross(a, b), a) == 0.0
    ensures Dot(Cross(a, b), b) == 0.0
  {
  }

  lemma CrossAntiCommutative(a: Vector3, b: Vector3)
    ensures Cross(b, a) == Scale(Cross(a, b), -1.0)
    ensures Cross(a, a) == Zero3
  {
  }

  lemma DotSymmetric(a: Vector3, b: Vector3)
    ensures Dot(a, b) == Dot(b, a)
  {
  }

  /** square(v) is dot(v, v); it is never negative and is zero only for the zero vector. */
  lemma SquareIsSelfDot(v: Vector3)
    ensures Square(v) == Dot(v, v)
    ensures Square(v) >= 0.0
    ensures Square(v) == 0.0 <==> v == Zero3
  {
    SquareOfRealNonNegative(v.x);
    SquareOfRealNonNegative(v.y);
    SquareOfRealNonNegative(v.z);
  }

  lemma SquareOfRealNonNegative(r: real)
    ensures r * r >= 0.0
    ensures r * r == 0.0 ==> r == 0.0
  {
    if r != 0.0 {
      assert r * r == r * r / r * r;
    }
  }

  lemma ZeroFactor(a: real, b: real)
    requires a * b == 0.0 && b != 0.0
    ensures a == 0.0
  {
    assert a == a * b / b;
  }

  /** dot is linear in its first argument. */
  lemma DotLinear(a: Vector3, b: Vector3, c: Vector3, s: real)
    ensures Dot(Scale(a, s), c) == s * Dot(a, c)
    ensures Dot(Add(a, b), c) == Dot(a, c) + Dot(b, c)
  {
  }

  /** A normalized vector has unit length when sqrt is exact. */
  lemma NormalizeUnit(lib: Numerics, v: Vector3)
    requires lib.SqrtExact()
    requires Length(lib, v) != 0.0
    ensures Square(Normalize(lib, v)) == 1.0
    ensures Length(lib, Normalize(lib, v)) == 1.0
  {
    var l := Length(lib, v);
    var r := 1.0 / l;
    assert l * l == Square(v) by { SquareIsSelfDot(v); }
    assert Square(Scale(v, r)) == r * r * Square(v);
    assert r * r * (l * l) == 1.0;
    assert Square(Normalize(lib, v)) == 1.0;
    var s := lib.sqrt(1.0);
    assert Length(lib, Normalize(lib, v)) == s;
    assert 0.0 <= s && s * s == 1.0;
    assert (s - 1.0) * (s + 1.0) == 0.0;
    ZeroFactor(s - 1.0, s + 1.0);
  }

  /** The normalized vector is a multiple of the input, whatever sqrt
      returns: their cross product vanishes. */
  lemma NormalizeParallel(lib: Numerics, v: Vector3)
    requires Length(lib, v) != 0.0
    ensures Cross(Normalize(lib, v), v) == Zero3
  {
  }

  /** With an exact sqrt the normalized vector points the same way as the
      input: a positive multiple of it. */
  lemma NormalizeSameDirection(lib: Numerics, v: Vector3)
    requires lib.SqrtExact()
    requires Length(lib, v) != 0.0
    ensures Dot(Normalize(lib, v), v) > 0.0
  {
    var l := Length(lib, v);
    SquareIsSelfDot(v);
    assert 0.0 < l;
    assert Dot(Normalize(lib, v), v) == (1.0 / l) * Square(v);
    assert Square(v) == l * l;
  }

  lemma LessIrreflexive(a: Vector3)
    ensures !Less(a, a)
  {
  }

  lemma LessTransitive(a: Vector3, b: Vector3, c: Vector3)
    requires Less(a, b) && Less(b, c)
    ensures Less(a, c)
  {
  }

  lemma LessTrichotomy(a: Vector3, b: Vector3)
    requires a != b
    ensures Less(a, b) != Less(b, a)
  {
  }

  /** With an exact sqrt, the length product GetRadianBetween checks is
      not IsZero for two unit vectors: both lengths are 1. */
  lemma UnitLengthsNotZero(lib: Numerics, a: Vector3, b: Vector3)
    requires lib.SqrtExact()
    requires Square(a) == 1.0 && Square(b) == 1.0
    ensures Length(lib, a) * Length(lib, b) == 1.0
    ensures !IsZero(Length(lib, a) * Length(lib, b))
  {
    var s := lib.sqrt(1.0);
    assert 0.0 <= s && s * s == 1.0;
    assert (s - 1.0) * (s + 1.0) == 0.0;
    ZeroFactor(s - 1.0, s + 1.0);
  }

  // ------------------------------------------- Vector3 in-place operators

  /** The member array v[3] of a Vector3, read as a value. */
  function AsVector3(v: seq<real>): Vector3
    requires |v| == 3
  {
    Vector3(v[0], v[1], v[2])
  }

  /** Component i of a Vector3 (the source's v[i]). */
  function At(a: Vector3, i: nat): real
    requires i < 3
  {
    if i == 0 then a.x else if i == 1 then a.y else a.z
  }

  /** operator +=: adds r component by component into v, in place. */
  method AddAssign(v: array<real>, r: Vector3)
    requires v.Length == 3
    modifies v
    ensures AsVector3(v[..]) == Add(AsVector3(old(v[..])), r)
  {
    for i := 0 to 3
      invariant forall j :: 0 <= j < i ==> v[j] == old(v[j]) + At(r, j)
      invariant forall j :: i <= j < 3 ==> v[j] == old(v[j])
    {
      v[i] := v[i] + At(r, i);
    }
  }

  /** operator -=: subtracts r component by component from v, in place. */
  method SubAssign(v: array<real>, r: Vector3)
    requires v.Length == 3
    modifies v
    ensures AsVector3(v[..]) == Sub(AsVector3(old(v[..])), r)
  {
    for i := 0 to 3
      invariant forall j :: 0 <= j < i ==> v[j] == old(v[j]) - At(r, j)
      invariant forall j :: i <= j < 3 ==> v[j] == old(v[j])
    {
      v[i] := v[i] - At(r, i);
    }
  }

  /** operator /=: divides every component by val, in place. A zero val
      (an infinity or NaN in the source) is excluded. */
  method DivAssign(v: array<real>, val: real)
    requires v.Length == 3 && val != 0.0
    modifies v
    ensures AsVector3(v[..]) == Scale(AsVector3(old(v[..])), 1.0 / val)
  {
    for i := 0 to 3
      invariant forall j :: 0 <= j < i ==> v[j] == old(v[j]) / val
      invariant forall j :: i <= j < 3 ==> v[j] == old(v[j])
    {
      v[i] := v[i] / val;
    }
    DivIsScale(old(v[0]), val);
    DivIsScale(old(v[1]), val);
    DivIsScale(old(v[2]), val);
  }

  /** operator /= with val a component of v itself (v /= v.x): the
      reference val reads v[k] while the loop overwrites it, so components
      up to k are divided by the original v[k], v[k] becomes 1, and the
      components after k are divided by that 1 and keep their value. */
  method DivAssignByComponent(v: array<real>, k: nat)
    requires v.Length == 3 && k < 3 && v[k] != 0.0
    modifies v
    ensures forall j :: 0 <= j <= k ==> v[j] == old(v[j]) / old(v[k])
    ensures forall j :: k < j < 3 ==> v[j] == old(v[j])
    ensures v[k] == 1.0
  {
    for i := 0 to 3
      invariant forall j :: 0 <= j < i && j <= k ==> v[j] == old(v[j]) / old(v[k])
      invariant forall j :: 0 <= j < i && k < j ==> v[j] == old(v[j])
      invariant forall j :: i <= j < 3 ==> v[j] == old(v[j])
      invariant k < i ==> v[k] == 1.0
    {
      DivSelf(old(v[k]));
      v[i] := v[i] / v[k];
    }
  }

  lemma DivIsScale(a: real, val: real)
    requires val != 0.0
    ensures a / val == a * (1.0 / val)
  {
  }

  /** SetZero: every component becomes 0. */
  method SetZero(v: array<real>)
    requires v.Length == 3
    modifies v
    ensures AsVector3(v[..]) == Zero3
  {
    for i := 0 to 3
      invariant forall j :: 0 <= j < i ==> v[j] == 0.0
    {
      v[i] := 0.0;
    }
  }

  /** += followed by -= of the same vector restores the original. */
  lemma AddThenSub(a: Vector3, r: Vector3)
    ensures Sub(Add(a, r), r) == a
  {
  }

  /** /= by val undoes a scaling by val. */
  lemma {:induction false} ScaleThenDiv(a: Vector3, val: real)
    requires val != 0.0
    ensures Scale(Scale(a, val), 1.0 / val) == a
  {
    DivIsScale(a.x * val, val);
    DivIsScale(a.y * val, val);
    DivIsScale(a.z * val, val);
  }

  // ---------------------------------------------------------------- Vector4

  datatype Vector4 = Vector4(x: real, y: real, z: real, w: real)

  /** Vector4(const Vector3&, w) */
  function FromVector3(v: Vector3, w: real): Vector4 {
    Vector4(v.x, v.y, v.z, w)
  }

  /** Vector4::xyz() */
  function Xyz(v: Vector4): Vector3 {
    Vector3(v.x, v.y, v.z)
  }

  /** Vector4::perspectiveDiv on the member array v[4], in place. The loop
      divides v[3] by itself last, so the first three entries are divided by
      the original w and w becomes 1. */
  method PerspectiveDiv(v: array<real>)
    requires v.Length == 4
    modifies v
    ensures old(v[3]) == 0.0 ==> v[..] == old(v[..])
    ensures old(v[3]) != 0.0 ==> v[..] == [old(v[0]) / old(v[3]), old(v[1]) / old(v[3]), old(v[2]) / old(v[3]), 1.0]
  {
    if v[3] == 0.0 {
      return;
    }
    var i := 0;
    while i < 4
      invariant 0 <= i <= 4
      invariant i < 4 ==> v[3] == old(v[3])
      invariant forall j :: 0 <= j < i && j < 3 ==> v[j] == old(v[j]) / old(v[3])
      invariant forall j :: i <= j < 4 ==> v[j] == old(v[j])
      invariant i == 4 ==> v[3] == 1.0
    {
      DivSelf(v[3]);
      v[i] := v[i] / v[3];
      i := i + 1;
    }
  }

  lemma DivSelf(w: real)
    requires w != 0.0
    ensures w / w == 1.0
  {
  }

  // ---------------------------------------------------------------- Matrix4

  /** Column-major 4x4 matrix: field mK is the source's m[K], and entry
      (row r, column c) is m[4 * c + r]. */
  datatype Matrix4 = Matrix4(m0: real, m1: real, m2: real, m3: real,
                             m4: real, m5: real, m6: real, m7: real,
                             m8: real, m9: real, m10: real, m11: real,
                             m12: real, m13: real, m14: real, m15: real)

  /** The default constructor Matrix4(). */
  function Identity(): Matrix4 {
    Matrix4(1.0, 0.0, 0.0, 0.0,
            0.0, 1.0, 0.0, 0.0,
            0.0, 0.0, 1.0, 0.0,
            0.0, 0.0, 0.0, 1.0)
  }

  /** Matrix4(val): val on the first three diagonal entries, 1 in the corner. */
  function ScalarMatrix(val: real): Matrix4 {
    Matrix4(val, 0.0, 0.0, 0.0,
            0.0, val, 0.0, 0.0,
            0.0, 0.0, val, 0.0,
            0.0, 0.0, 0.0, 1.0)
  }

  /** translate(const Vector3&) */
  function Translate(t: Vector3): Matrix4 {
    ScalarMatrix(1.0).(m12 := t.x, m13 := t.y, m14 := t.z)
  }

  /** rotate(radian, n): the identity for a zero angle, otherwise the
      axis-angle rotation about normalize(n). */
  function Rotate(lib: Numerics, radian: real, n: Vector3): Matrix4
    requires radian != 0.0 ==> Length(lib, n) != 0.0
  {
    if radian == 0.0 then ScalarMatrix(1.0)
    else
      var axis := Normalize(lib, n);
      AxisAngle(lib.cos(radian), lib.sin(radian), axis.x, axis.y, axis.z)
  }

  /** The body of rotate for a non-zero angle: Matrix4(1) with its upper-left
      3x3 block replaced by the axis-angle formula for cosine c, sine s and
      the (already normalized) axis (x, y, z). */
  function AxisAngle(c: real, s: real, x: real, y: real, z: real): Matrix4 {
    Matrix4((1.0 - c) * x * x + c, (1.0 - c) * x * y + z * s, (1.0 - c) * x * z - y * s, 0.0,
            (1.0 - c) * x * y - z * s, (1.0 - c) * y * y + c, (1.0 - c) * y * z + x * s, 0.0,
            (1.0 - c) * x * z + y * s, (1.0 - c) * y * z - x * s, (1.0 - c) * z * z + c, 0.0,
            0.0, 0.0, 0.0, 1.0)
  }

  /** One row (r0, r1, r2, r3) of a matrix times the vector (x, y, z, w). */
  function RowTimes(r0: real, r1: real, r2: real, r3: real, x: real, y: real, z: real, w: real): real {
    r0 * x + r1 * y + r2 * z + r3 * w
  }

  /** operator * (Matrix4, Vector4) */
  function MulVec(m: Matrix4, v: Vector4): Vector4 {
    Vector4(RowTimes(m.m0, m.m4, m.m8, m.m12, v.x, v.y, v.z, v.w),
            RowTimes(m.m1, m.m5, m.m9, m.m13, v.x, v.y, v.z, v.w),
            RowTimes(m.m2, m.m6, m.m10, m.m14, v.x, v.y, v.z, v.w),
            RowTimes(m.m3, m.m7, m.m11, m.m15, v.x, v.y, v.z, v.w))
  }

  /** The member array v[16] of a Matrix4, read as a value. */
  function AsMatrix4(v: seq<real>): Matrix4
    requires |v| == 16
  {
    Matrix4(v[0], v[1], v[2], v[3], v[4], v[5], v[6], v[7],
            v[8], v[9], v[10], v[11], v[12], v[13], v[14], v[15])
  }

  /** Matrix4::identify: clear all sixteen entries, then put 1 on the diagonal. */
  method Identify(v: array<real>)
    requires v.Length == 16
    modifies v
    ensures AsMatrix4(v[..]) == Identity()
  {
    for i := 0 to 16
      invariant forall j :: 0 <= j < i ==> v[j] == 0.0
    {
      v[i] := 0.0;
    }
    v[0], v[5], v[10], v[15] := 1.0, 1.0, 1.0, 1.0;
  }

  /** An affine matrix: last row (0, 0, 0, 1). */
  predicate Affine(m: Matrix4) {
    m.m3 == 0.0 && m.m7 == 0.0 && m.m11 == 0.0 && m.m15 == 1.0
  }

  lemma ScalarOneIsIdentity()
    ensures ScalarMatrix(1.0) == Identity()
    ensures forall v :: MulVec(Identity(), v) == v
  {
  }

  /** translate(t) moves a point (w = 1) by t and leaves a direction (w = 0) alone. */
  lemma TranslatePointAndDirection(t: Vector3, p: Vector3)
    ensures MulVec(Translate(t), FromVector3(p, 1.0)) == FromVector3(Add(p, t), 1.0)
    ensures MulVec(Translate(t), FromVector3(p, 0.0)) == FromVector3(p, 0.0)
  {
  }

  lemma RotateZeroIsIdentity(lib: Numerics, n: Vector3)
    ensures Rotate(lib, 0.0, n) == Identity()
  {
  }

  /** Every rotation matrix is affine with no translation, so directions stay
      directions and points stay points, and a point is moved exactly as the
      direction with the same coordinates. */
  lemma RotateIsLinear(lib: Numerics, radian: real, n: Vector3, p: Vector3)
    requires radian != 0.0 ==> Length(lib, n) != 0.0
    ensures Affine(Rotate(lib, radian, n))
    ensures Rotate(lib, radian, n).m12 == 0.0 && Rotate(lib, radian, n).m13 == 0.0 && Rotate(lib, radian, n).m14 == 0.0
    ensures MulVec(Rotate(lib, radian, n), FromVector3(p, 0.0)).w == 0.0
    ensures MulVec(Rotate(lib, radian, n), FromVector3(p, 1.0)).w == 1.0
    ensures Xyz(MulVec(Rotate(lib, radian, n), FromVector3(p, 1.0))) == Xyz(MulVec(Rotate(lib, radian, n), FromVector3(p, 0.0)))
  {
  }

  /** The rotation axis is fixed by the rotation, whatever values sin and cos
      return, once the axis has unit length. */
  lemma RotateFixesAxis(lib: Numerics, radian: real, n: Vector3)
    requires lib.SqrtExact()
    requires Length(lib, n) != 0.0
    ensures MulVec(Rotate(lib, radian, n), FromVector3(Normalize(lib, n), 0.0)) == FromVector3(Normalize(lib, n), 0.0)
  {
    if radian != 0.0 {
      NormalizeUnit(lib, n);
      AxisAngleFixesAxis(lib.cos(radian), lib.sin(radian), Normalize(lib, n));
    }
  }

  lemma AxisAngleFixesAxis(c: real, s: real, a: Vector3)
    requires Square(a) == 1.0
    ensures MulVec(AxisAngle(c, s, a.x, a.y, a.z), FromVector3(a, 0.0)) == FromVector3(a, 0.0)
  {
    AxisAngleOnAxis(c, s, a);
    StretchOfUnit(c, a);
    assert Scale(a, 1.0) == a;
  }

  lemma StretchOfUnit(c: real, a: Vector3)
    requires Square(a) == 1.0
    ensures Stretch(c, a.x, a.y, a.z) == 1.0
  {
    var q := a.x * a.x + a.y * a.y + a.z * a.z;
    assert q == 1.0;
    assert (1.0 - c) * q == 1.0 - c;
  }

  /** The factor (1 - c) |(x, y, z)|^2 + c. */
  function Stretch(c: real, x: real, y: real, z: real): real {
    (1.0 - c) * (x * x + y * y + z * z) + c
  }

  /** Applied to its own axis, the axis-angle block scales the axis by
      Stretch whatever its length; the sine terms cancel. */
  lemma AxisAngleOnAxis(c: real, s: real, a: Vector3)
    ensures MulVec(AxisAngle(c, s, a.x, a.y, a.z), FromVector3(a, 0.0))
         == FromVector3(Scale(a, Stretch(c, a.x, a.y, a.z)), 0.0)
  {
    var m := AxisAngle(c, s, a.x, a.y, a.z);
    var k := Stretch(c, a.x, a.y, a.z);
    RowXOnAxis(c, s, a.x, a.y, a.z);
    RowYOnAxis(c, s, a.x, a.y, a.z);
    RowZOnAxis(c, s, a.x, a.y, a.z);
    assert RowTimes(m.m3, m.m7, m.m11, m.m15, a.x, a.y, a.z, 0.0) == 0.0;
    assert MulVec(m, FromVector3(a, 0.0)) == Vector4(a.x * k, a.y * k, a.z * k, 0.0);
  }

  /** Row x of the axis-angle block against its axis. */
  lemma RowXOnAxis(c: real, s: real, x: real, y: real, z: real)
    ensures RowTimes(AxisAngle(c, s, x, y, z).m0, AxisAngle(c, s, x, y, z).m4,
                     AxisAngle(c, s, x, y, z).m8, AxisAngle(c, s, x, y, z).m12, x, y, z, 0.0)
         == x * Stretch(c, x, y, z)
  {
    var m := AxisAngle(c, s, x, y, z);
    RowXPoly(c, s, x, y, z, m.m0, m.m4, m.m8, m.m12, Stretch(c, x, y, z));
  }

  lemma RowXPoly(c: real, s: real, x: real, y: real, z: real, e0: real, e1: real, e2: real, e3: real, k: real)
    requires k == (1.0 - c) * (x * x + y * y + z * z) + c
    requires e0 == (1.0 - c) * x * x + c
    requires e1 == (1.0 - c) * x * y - z * s
    requires e2 == (1.0 - c) * x * z + y * s
    requires e3 == 0.0
    ensures RowTimes(e0, e1, e2, e3, x, y, z, 0.0) == x * k
  {
  }

  /** Row y of the axis-angle block against its axis. */
  lemma RowYOnAxis(c: real, s: real, x: real, y: real, z: real)
    ensures RowTimes(AxisAngle(c, s, x, y, z).m1, AxisAngle(c, s, x, y, z).m5,
                     AxisAngle(c, s, x, y, z).m9, AxisAngle(c, s, x, y, z).m13, x, y, z, 0.0)
         == y * Stretch(c, x, y, z)
  {
    var m := AxisAngle(c, s, x, y, z);
    RowYPoly(c, s, x, y, z, m.m1, m.m5, m.m9, m.m13, Stretch(c, x, y, z));
  }

  lemma RowYPoly(c: real, s: real, x: real, y: real, z: real, e0: real, e1: real, e2: real, e3: real, k: real)
    requires k == (1.0 - c) * (x * x + y * y + z * z) + c
    requires e0 == (1.0 - c) * x * y + z * s
    requires e1 == (1.0 - c) * y * y + c
    requires e2 == (1.0 - c) * y * z - x * s
    requires e3 == 0.0
    ensures RowTimes(e0, e1, e2, e3, x, y, z, 0.0) == y * k
  {
  }

  /** Row z of the axis-angle block against its axis. */
  lemma RowZOnAxis(c: real, s: real, x: real, y: real, z: real)
    ensures RowTimes(AxisAngle(c, s, x, y, z).m2, AxisAngle(c, s, x, y, z).m6,
                     AxisAngle(c, s, x, y, z).m10, AxisAngle(c, s, x, y, z).m14, x, y, z, 0.0)
         == z * Stretch(c, x, y, z)
  {
    var m := AxisAngle(c, s, x, y, z);
    RowZPoly(c, s, x, y, z, m.m2, m.m6, m.m10, m.m14, Stretch(c, x, y, z));
  }

  lemma RowZPoly(c: real, s: real, x: real, y: real, z: real, e0: real, e1: real, e2: real, e3: real, k: real)
    requires k == (1.0 - c) * (x * x + y * y + z * z) + c
    requires e0 == (1.0 - c) * x * z - y * s
    requires e1 == (1.0 - c) * y * z + x * s
    requires e2 == (1.0 - c) * z * z + c
    requires e3 == 0.0
    ensures RowTimes(e0, e1, e2, e3, x, y, z, 0.0) == z * k
  {
  }

  // ---------------------------------------------------------------- angles

  /** GetRadianBetween: the angle between two vectors, with the cosine
      clamped to 0 above 1 and to pi below -1. The source asserts that the
      length product is not IsZero. */
  function GetRadianBetween(lib: Numerics, v1: Vector3, v2: Vector3): real
    requires !IsZero(Length(lib, v1) * Length(lib, v2))
  {
    var product := Length(lib, v1) * Length(lib, v2);
    var c := Dot(v1, v2) / product;
    if c > 1.0 then 0.0
    else if c < -1.0 then Pi
    else lib.acos(c)
  }

  /** The angle lies in [0, pi]. */
  lemma RadianBetweenRange(lib: Numerics, v1: Vector3, v2: Vector3)
    requires lib.AcosInRange()
    requires !IsZero(Length(lib, v1) * Length(lib, v2))
    ensures 0.0 <= GetRadianBetween(lib, v1, v2) <= Pi
  {
  }

  /** The angle does not depend on the order of the arguments. */
  lemma RadianBetweenSymmetric(lib: Numerics, v1: Vector3, v2: Vector3)
    requires !IsZero(Length(lib, v1) * Length(lib, v2))
    ensures !IsZero(Length(lib, v2) * Length(lib, v1))
    ensures GetRadianBetween(lib, v1, v2) == GetRadianBetween(lib, v2, v1)
  {
    DotSymmetric(v1, v2);
  }

  function Degree2Radian(degrees: real): real {
    TwoPi * degrees / 360.0
  }

  function Radian2Degree(radians: real): real {
    radians * 360.0 / TwoPi
  }

  lemma DegreeRadianRoundTrip(d: real, r: real)
    ensures Radian2Degree(Degree2Radian(d)) == d
    ensures Degree2Radian(Radian2Degree(r)) == r
  {
  }
}
