/** StentFrameGenerator: sweeps a sinusoidal ring pattern along a centre
    line. One moving frame (T, N, B, O) is built per centre-line segment,
    and one closed ring of points is laid out in each frame. */
module StentFrame {
  import opened SiMath
  import opened BeizerSpline

  /** The TNB record: tangent, normal, binormal and origin of one frame. */
  datatype TNB = TNB(T: Vector3, N: Vector3, B: Vector3, O: Vector3)

  /** Below this angle between consecutive tangents the previous normal and
      binormal are copied instead of rotated. */
  const RadianEps: real := 0.00001

  /** The parametric step of the spline that CreateStentFrame fits. */
  const SplineStep: real := 0.1

  /** m_PartCnt: the number of parts the fitted spline is cut into. */
  const PartCnt: nat := 10

  // ------------------------------------------------------------ frames

  /** The segment from p0 to p1 has a direction that normalize accepts. */
  predicate TangentOk(lib: Numerics, p0: Vector3, p1: Vector3) {
    Length(lib, Sub(p1, p0)) != 0.0
  }

  /** T = normalize(p1 - p0). */
  function Tangent(lib: Numerics, p0: Vector3, p1: Vector3): Vector3
    requires TangentOk(lib, p0, p1)
  {
    Normalize(lib, Sub(p1, p0))
  }

  /** The vector (T.x + 0.5, T.y - 0.5, T.z) that seeds the first frame. */
  function Seed(t: Vector3): Vector3 {
    Vector3(t.x + 0.5, t.y - 0.5, t.z)
  }

  /** Every normalize of the first frame has a non-zero argument. */
  predicate BootstrapOk(lib: Numerics, t: Vector3) {
    Length(lib, Seed(t)) != 0.0
    && Length(lib, Cross(Normalize(lib, Seed(t)), t)) != 0.0
    && Length(lib, Cross(Normalize(lib, Cross(Normalize(lib, Seed(t)), t)), t)) != 0.0
  }

  /** The first frame: N = normalize(cross(tmp, T)), B = normalize(cross(N, T))
      with tmp = normalize(Seed(T)). */
  function FirstFrame(lib: Numerics, t: Vector3, o: Vector3): (f: TNB)
    requires BootstrapOk(lib, t)
    ensures f.T == t && f.O == o
  {
    var tmp := Normalize(lib, Seed(t));
    var n := Normalize(lib, Cross(tmp, t));
    TNB(t, n, Normalize(lib, Cross(n, t)), o)
  }

  /** GetRadianBetween accepts the two tangents, and when the angle calls
      for a rotation its axis can be normalized twice (once by the caller,
      once inside rotate). */
  predicate TransportOk(lib: Numerics, prevT: Vector3, t: Vector3) {
    !IsZero(Length(lib, prevT) * Length(lib, t))
    && (RadianEps <= GetRadianBetween(lib, prevT, t) ==>
          Length(lib, Cross(prevT, t)) != 0.0
          && Length(lib, Normalize(lib, Cross(prevT, t))) != 0.0)
  }

  /** The rotation that carries the previous frame onto tangent t. */
  function TransportRotation(lib: Numerics, prevT: Vector3, t: Vector3): Matrix4
    requires TransportOk(lib, prevT, t)
    requires RadianEps <= GetRadianBetween(lib, prevT, t)
  {
    Rotate(lib, GetRadianBetween(lib, prevT, t), Normalize(lib, Cross(prevT, t)))
  }

  /** A later frame: N and B are copied from the previous frame when the
      tangent turns by less than RadianEps, and otherwise rotated by
      TransportRotation as directions (w = 0). */
  function Transport(lib: Numerics, prev: TNB, t: Vector3, o: Vector3): (f: TNB)
    requires TransportOk(lib, prev.T, t)
    ensures f.T == t && f.O == o
  {
    if GetRadianBetween(lib, prev.T, t) < RadianEps then TNB(t, prev.N, prev.B, o)
    else
      var rot := TransportRotation(lib, prev.T, t);
      TNB(t, Xyz(MulVec(rot, FromVector3(prev.N, 0.0))), Xyz(MulVec(rot, FromVector3(prev.B, 0.0))), o)
  }

  /** Segment i of pts has a tangent, and that tangent can be reached from
      the one before: bootstrapped for i = 0, transported otherwise. */
  predicate SegmentOk(lib: Numerics, pts: seq<Vector3>, i: nat)
    requires i + 1 < |pts|
  {
    TangentOk(lib, pts[i], pts[i + 1])
    && (i == 0 ==> BootstrapOk(lib, Tangent(lib, pts[0], pts[1])))
    && (0 < i ==> TangentOk(lib, pts[i - 1], pts[i])
                  && TransportOk(lib, Tangent(lib, pts[i - 1], pts[i]), Tangent(lib, pts[i], pts[i + 1])))
  }

  /** The degenerate inputs the source does not guard against are absent:
      no two consecutive points coincide, the first tangent can be
      bootstrapped, and every later tangent can be transported onto. */
  predicate Transportable(lib: Numerics, pts: seq<Vector3>) {
    forall i: nat :: i + 1 < |pts| ==> SegmentOk(lib, pts, i)
  }

  /** The tangent of segment i. */
  function TangentAt(lib: Numerics, pts: seq<Vector3>, i: nat): Vector3
    requires Transportable(lib, pts) && i + 1 < |pts|
  {
    assert SegmentOk(lib, pts, i);
    Tangent(lib, pts[i], pts[i + 1])
  }

  /** The angle between the tangents of segments i - 1 and i. */
  function Turn(lib: Numerics, pts: seq<Vector3>, i: nat): real
    requires Transportable(lib, pts) && 0 < i && i + 1 < |pts|
  {
    assert SegmentOk(lib, pts, i);
    GetRadianBetween(lib, TangentAt(lib, pts, i - 1), TangentAt(lib, pts, i))
  }

  /** The rotation applied at segment i when the tangent turns. */
  function TurnRotation(lib: Numerics, pts: seq<Vector3>, i: nat): Matrix4
    requires Transportable(lib, pts) && 0 < i && i + 1 < |pts|
    requires RadianEps <= Turn(lib, pts, i)
  {
    assert SegmentOk(lib, pts, i);
    TransportRotation(lib, TangentAt(lib, pts, i - 1), TangentAt(lib, pts, i))
  }

  /** Frame 0: bootstrapped from the first tangent. */
  function Bootstrap(lib: Numerics, pts: seq<Vector3>): (f: TNB)
    requires Transportable(lib, pts) && 2 <= |pts|
    ensures f.T == TangentAt(lib, pts, 0) && f.O == pts[0]
  {
    assert SegmentOk(lib, pts, 0);
    FirstFrame(lib, TangentAt(lib, pts, 0), pts[0])
  }

  /** Frame i > 0: the previous frame transported onto tangent i. */
  function Advance(lib: Numerics, pts: seq<Vector3>, i: nat, prev: TNB): (f: TNB)
    requires Transportable(lib, pts) && 0 < i && i + 1 < |pts|
    requires prev.T == TangentAt(lib, pts, i - 1)
    ensures f.T == TangentAt(lib, pts, i) && f.O == pts[i]
  {
    assert SegmentOk(lib, pts, i);
    Transport(lib, prev, TangentAt(lib, pts, i), pts[i])
  }

  /** Frame i: bootstrapped for the first segment, and for every later one
      the frame before it transported onto its tangent. Its origin is
      pts[i] and its tangent that of segment i. */
  function FrameAt(lib: Numerics, pts: seq<Vector3>, i: nat): (f: TNB)
    requires Transportable(lib, pts) && i + 1 < |pts|
    ensures f.T == TangentAt(lib, pts, i) && f.O == pts[i]
    decreases i
  {
    if i == 0 then Bootstrap(lib, pts) else Advance(lib, pts, i, FrameAt(lib, pts, i - 1))
  }

  /** The number of frames: one per segment. */
  function FrameCount(pts: seq<Vector3>): nat {
    if |pts| == 0 then 0 else |pts| - 1
  }

  /** FrameAt in the terms of the two steps of UpdateTNBFrames. */
  lemma FrameSteps(lib: Numerics, pts: seq<Vector3>, i: nat)
    requires Transportable(lib, pts) && i + 1 < |pts|
    ensures TangentOk(lib, pts[i], pts[i + 1])
    ensures i == 0 ==> BootstrapOk(lib, Tangent(lib, pts[0], pts[1]))
                       && FrameAt(lib, pts, 0) == FirstFrame(lib, Tangent(lib, pts[0], pts[1]), pts[0])
    ensures 0 < i ==> TransportOk(lib, FrameAt(lib, pts, i - 1).T, Tangent(lib, pts[i], pts[i + 1]))
                      && FrameAt(lib, pts, i) == Transport(lib, FrameAt(lib, pts, i - 1), Tangent(lib, pts[i], pts[i + 1]), pts[i])
  {
    assert SegmentOk(lib, pts, i);
  }

  /** frames holds the first |frames| frames of pts, in order: what the
      loop of UpdateTNBFrames has built so far. */
  ghost predicate FramesSoFar(lib: Numerics, pts: seq<Vector3>, frames: seq<TNB>)
    requires Transportable(lib, pts)
    decreases |frames|
  {
    |frames| <= FrameCount(pts)
    && (|frames| == 0
        || (FramesSoFar(lib, pts, frames[..|frames| - 1])
            && frames[|frames| - 1] == FrameAt(lib, pts, |frames| - 1)))
  }

  /** Every frame built so far is the frame FrameAt defines. */
  lemma {:induction false} FramesSoFarAt(lib: Numerics, pts: seq<Vector3>, frames: seq<TNB>, k: nat)
    requires Transportable(lib, pts) && FramesSoFar(lib, pts, frames) && k < |frames|
    ensures k + 1 < |pts| && frames[k] == FrameAt(lib, pts, k)
    decreases |frames|
  {
    if k + 1 < |frames| {
      FramesSoFarAt(lib, pts, frames[..|frames| - 1], k);
    }
  }

  /** Once one frame per segment is built, the frames are Frames. */
  lemma FramesSoFarComplete(lib: Numerics, pts: seq<Vector3>, frames: seq<TNB>)
    requires Transportable(lib, pts) && FramesSoFar(lib, pts, frames) && |frames| == FrameCount(pts)
    ensures frames == Frames(lib, pts)
  {
    forall k | 0 <= k < |frames|
      ensures frames[k] == Frames(lib, pts)[k]
    {
      FramesSoFarAt(lib, pts, frames, k);
    }
  }

  /** All frames of a centre line, in segment order. */
  function Frames(lib: Numerics, pts: seq<Vector3>): (fs: seq<TNB>)
    requires Transportable(lib, pts)
    ensures |fs| == FrameCount(pts)
    ensures forall i :: 0 <= i < |fs| ==> fs[i] == FrameAt(lib, pts, i)
  {
    seq(FrameCount(pts), i requires 0 <= i < FrameCount(pts) => FrameAt(lib, pts, i))
  }

  /** Where the tangent turns by less than RadianEps, frame i keeps the
      normal and binormal of frame i - 1; elsewhere they are the previous
      ones rotated about the normalized cross product of the two tangents. */
  lemma CopyOrRotate(lib: Numerics, pts: seq<Vector3>, i: nat)
    requires Transportable(lib, pts) && 0 < i && i + 1 < |pts|
    ensures Turn(lib, pts, i) < RadianEps ==>
      FrameAt(lib, pts, i).N == FrameAt(lib, pts, i - 1).N && FrameAt(lib, pts, i).B == FrameAt(lib, pts, i - 1).B
    ensures RadianEps <= Turn(lib, pts, i) ==>
      FrameAt(lib, pts, i).N == Xyz(MulVec(TurnRotation(lib, pts, i), FromVector3(FrameAt(lib, pts, i - 1).N, 0.0)))
      && FrameAt(lib, pts, i).B == Xyz(MulVec(TurnRotation(lib, pts, i), FromVector3(FrameAt(lib, pts, i - 1).B, 0.0)))
  {
    assert SegmentOk(lib, pts, i);
  }

  /** Along a run of segments where every turn is below RadianEps, the
      normal and binormal never change. */
  lemma {:induction false} StraightRunKeepsNormals(lib: Numerics, pts: seq<Vector3>, a: nat, b: nat)
    requires Transportable(lib, pts) && a <= b && b + 1 < |pts|
    requires forall i: nat :: a < i <= b ==> Turn(lib, pts, i) < RadianEps
    ensures FrameAt(lib, pts, b).N == FrameAt(lib, pts, a).N
    ensures FrameAt(lib, pts, b).B == FrameAt(lib, pts, a).B
    decreases b - a
  {
    if a < b {
      StraightRunKeepsNormals(lib, pts, a, b - 1);
      CopyOrRotate(lib, pts, b);
    }
  }

  /** The rotation axis is orthogonal to both tangents, and the rotation
      leaves that axis where it is once sqrt is exact. */
  lemma TransportAxis(lib: Numerics, prevT: Vector3, t: Vector3)
    requires lib.SqrtExact()
    requires TransportOk(lib, prevT, t) && RadianEps <= GetRadianBetween(lib, prevT, t)
    ensures Dot(Normalize(lib, Cross(prevT, t)), prevT) == 0.0
    ensures Dot(Normalize(lib, Cross(prevT, t)), t) == 0.0
    ensures MulVec(TransportRotation(lib, prevT, t), FromVector3(Normalize(lib, Normalize(lib, Cross(prevT, t))), 0.0))
         == FromVector3(Normalize(lib, Normalize(lib, Cross(prevT, t))), 0.0)
  {
    var c := Cross(prevT, t);
    CrossOrthogonal(prevT, t);
    NormalizedOrthogonal(lib, c, prevT);
    NormalizedOrthogonal(lib, c, t);
    RotateFixesAxis(lib, GetRadianBetween(lib, prevT, t), Normalize(lib, c));
  }

  /** With an exact sqrt, the assertion GetRadianBetween makes about two
      segment tangents always holds: both are unit vectors, so the product
      of their lengths is 1. */
  lemma TangentsPassAssertion(lib: Numerics, p0: Vector3, p1: Vector3, q0: Vector3, q1: Vector3)
    requires lib.SqrtExact()
    requires TangentOk(lib, p0, p1) && TangentOk(lib, q0, q1)
    ensures !IsZero(Length(lib, Tangent(lib, p0, p1)) * Length(lib, Tangent(lib, q0, q1)))
  {
    NormalizeUnit(lib, Sub(p1, p0));
    NormalizeUnit(lib, Sub(q1, q0));
    UnitLengthsNotZero(lib, Tangent(lib, p0, p1), Tangent(lib, q0, q1));
  }

  /** Normalizing keeps a vector orthogonal to whatever it was orthogonal to. */
  lemma NormalizedOrthogonal(lib: Numerics, v: Vector3, w: Vector3)
    requires Length(lib, v) != 0.0
    ensures Dot(v, w) == 0.0 ==> Dot(Normalize(lib, v), w) == 0.0
  {
    DotLinear(v, v, w, 1.0 / Length(lib, v));
  }

  /** The three axes are pairwise orthogonal and of unit length. */
  predicate Orthonormal(f: TNB) {
    Square(f.T) == 1.0 && Square(f.N) == 1.0 && Square(f.B) == 1.0
    && Dot(f.N, f.T) == 0.0 && Dot(f.B, f.T) == 0.0 && Dot(f.B, f.N) == 0.0
  }

  /** Whenever the cross products are non-zero, the axes of the first frame
      are pairwise orthogonal, whatever the tangent and whatever sqrt
      returns: each cross product is orthogonal to its arguments, and
      scaling keeps that. */
  lemma FirstFrameOrthogonal(lib: Numerics, t: Vector3, o: Vector3)
    requires BootstrapOk(lib, t)
    ensures var f := FirstFrame(lib, t, o);
      Dot(f.N, f.T) == 0.0 && Dot(f.B, f.T) == 0.0 && Dot(f.B, f.N) == 0.0
  {
    var tmp := Normalize(lib, Seed(t));
    var c := Cross(tmp, t);
    var n := Normalize(lib, c);
    var d := Cross(n, t);
    CrossOrthogonal(tmp, t);
    NormalizedOrthogonal(lib, c, t);
    CrossOrthogonal(n, t);
    NormalizedOrthogonal(lib, d, t);
    NormalizedOrthogonal(lib, d, n);
  }

  /** With an exact sqrt and a unit tangent the first frame is orthonormal:
      the two normalized axes also have unit length. */
  lemma FirstFrameOrthonormal(lib: Numerics, t: Vector3, o: Vector3)
    requires lib.SqrtExact()
    requires Square(t) == 1.0
    requires BootstrapOk(lib, t)
    ensures Orthonormal(FirstFrame(lib, t, o))
  {
    FirstFrameOrthogonal(lib, t, o);
    NormalizeUnit(lib, Cross(Normalize(lib, Seed(t)), t));
    NormalizeUnit(lib, Cross(Normalize(lib, Cross(Normalize(lib, Seed(t)), t)), t));
  }

  /** The first frame of a centre line is orthonormal. */
  lemma FramesStartOrthonormal(lib: Numerics, pts: seq<Vector3>)
    requires lib.SqrtExact()
    requires Transportable(lib, pts) && 2 <= |pts|
    ensures Orthonormal(FrameAt(lib, pts, 0))
  {
    assert SegmentOk(lib, pts, 0);
    NormalizeUnit(lib, Sub(pts[1], pts[0]));
    FirstFrameOrthonormal(lib, TangentAt(lib, pts, 0), pts[0]);
  }

  // -------------------------------------------------------- ring layout

  /** m_CachedSins / m_CachedCoss: f sampled at n equal steps of 2 pi / n. */
  function Table(f: real -> real, n: nat): (t: seq<real>)
    ensures |t| == n
  {
    seq(n, i requires 0 <= i < n => f(Angle(i, n)))
  }

  /** The angle of entry i of a table of n entries: i * (2 pi / n). */
  function Angle(i: nat, n: nat): real
    requires 0 < n
  {
    i as real * (TwoPi / n as real)
  }

  /** The sine and cosine tables are taken at the same angles, so their
      entries lie on the unit circle. */
  lemma TablesOnUnitCircle(lib: Numerics, n: nat, i: nat)
    requires lib.Pythagorean() && i < n
    ensures Table(lib.sin, n)[i] * Table(lib.sin, n)[i] + Table(lib.cos, n)[i] * Table(lib.cos, n)[i] == 1.0
  {
    assert Table(lib.sin, n)[i] == lib.sin(Angle(i, n));
    assert Table(lib.cos, n)[i] == lib.cos(Angle(i, n));
  }

  /** Local point k = j * sampleCnt + i of a ring: y follows sins[i], and
      x and z follow the second pair of tables at k. */
  function LocalPoint(sins: seq<real>, sins2: seq<real>, coss2: seq<real>, k: nat, xzScale: real, yScale: real): Vector3
    requires 0 < |sins| && k < |sins2| && k < |coss2|
  {
    Vector3(xzScale * sins2[k], yScale * sins[Phase(k, |sins|)], xzScale * coss2[k])
  }

  /** The position of sample k within its period of n samples. */
  function Phase(k: nat, n: nat): (i: nat)
    requires 0 < n
    ensures i < n
  {
    if k < n then k else Phase(k - n, n)
  }

  /** The period that sample k falls in, with n samples per period. */
  function Cycle(k: nat, n: nat): nat
    requires 0 < n
  {
    if k < n then 0 else Cycle(k - n, n) + 1
  }

  /** O + N * x + T * y + B * z: local coordinates to world space. */
  function ToWorld(f: TNB, p: Vector3): Vector3 {
    Add(Add(Add(f.O, Scale(f.N, p.x)), Scale(f.T, p.y)), Scale(f.B, p.z))
  }

  /** The coordinates of w along N, T and B, measured from O. */
  function ToLocal(f: TNB, w: Vector3): Vector3 {
    var d := Sub(w, f.O);
    Vector3(Dot(d, f.N), Dot(d, f.T), Dot(d, f.B))
  }

  /** One ring: the count local points in world space, closed by a copy of
      the first. */
  function Ring(f: TNB, sins: seq<real>, sins2: seq<real>, coss2: seq<real>, count: nat, xzScale: real, yScale: real): (r: seq<Vector3>)
    requires 0 < |sins| && 0 < count <= |sins2| && count <= |coss2|
    ensures |r| == count + 1 && r[count] == r[0]
  {
    var body := seq(count, k requires 0 <= k < count => ToWorld(f, LocalPoint(sins, sins2, coss2, k, xzScale, yScale)));
    body + [body[0]]
  }

  /** Every point of a ring but the closing copy is its local point in world space. */
  lemma RingPoint(f: TNB, sins: seq<real>, sins2: seq<real>, coss2: seq<real>, count: nat, xzScale: real, yScale: real, k: nat)
    requires 0 < |sins| && 0 < count <= |sins2| && count <= |coss2| && k < count
    ensures Ring(f, sins, sins2, coss2, count, xzScale, yScale)[k] == ToWorld(f, LocalPoint(sins, sins2, coss2, k, xzScale, yScale))
  {
  }

  /** Closing a list of the ring's world points with a copy of its first
      point gives the ring. */
  lemma RingOfPoints(f: TNB, sins: seq<real>, sins2: seq<real>, coss2: seq<real>, count: nat, xzScale: real, yScale: real, ws: seq<Vector3>)
    requires 0 < |sins| && 0 < count <= |sins2| && count <= |coss2|
    requires |ws| == count
    requires forall k :: 0 <= k < count ==> ws[k] == ToWorld(f, LocalPoint(sins, sins2, coss2, k, xzScale, yScale))
    ensures ws + [ws[0]] == Ring(f, sins, sins2, coss2, count, xzScale, yScale)
  {
    var r := Ring(f, sins, sins2, coss2, count, xzScale, yScale);
    forall k | 0 <= k < count
      ensures r[k] == ws[k]
    {
      RingPoint(f, sins, sins2, coss2, count, xzScale, yScale, k);
    }
  }

  /** In period j the y coordinate of sample i repeats sins[i]. */
  lemma {:induction false} PeriodRepeats(sins: seq<real>, sins2: seq<real>, coss2: seq<real>, j: nat, i: nat, xzScale: real, yScale: real)
    requires i < |sins| && Offset(j, |sins|) + i < |sins2| && Offset(j, |sins|) + i < |coss2|
    ensures LocalPoint(sins, sins2, coss2, Offset(j, |sins|) + i, xzScale, yScale).y == yScale * sins[i]
  {
    OffsetPhase(j, |sins|, i);
  }

  /** Sample i of period j sits at phase i of period j. */
  lemma {:induction false} OffsetPhase(j: nat, n: nat, i: nat)
    requires i < n
    ensures Phase(Offset(j, n) + i, n) == i
    ensures Cycle(Offset(j, n) + i, n) == j
    decreases j
  {
    if j > 0 {
      OffsetPhase(j - 1, n, i);
    }
  }

  /** With sine and cosine tables from the same library, every local point
      lies on the circle of radius |xzScale| in the x-z plane. */
  lemma LocalOnCircle(lib: Numerics, sins: seq<real>, n2: nat, k: nat, xzScale: real, yScale: real)
    requires lib.Pythagorean() && 0 < |sins| && k < n2
    ensures var p := LocalPoint(sins, Table(lib.sin, n2), Table(lib.cos, n2), k, xzScale, yScale);
      p.x * p.x + p.z * p.z == xzScale * xzScale
  {
    TablesOnUnitCircle(lib, n2, k);
    ScaledUnitCircle(xzScale, Table(lib.sin, n2)[k], Table(lib.cos, n2)[k]);
  }

  lemma ScaledUnitCircle(r: real, s: real, c: real)
    requires s * s + c * c == 1.0
    ensures (r * s) * (r * s) + (r * c) * (r * c) == r * r
  {
    assert (r * s) * (r * s) + (r * c) * (r * c) == (r * r) * (s * s + c * c);
  }

  /** In an orthonormal frame, ToLocal undoes ToWorld. */
  lemma WorldToLocal(f: TNB, p: Vector3)
    requires Orthonormal(f)
    ensures ToLocal(f, ToWorld(f, p)) == p
  {
    var d := Sub(ToWorld(f, p), f.O);
    assert d == Add(Add(Scale(f.N, p.x), Scale(f.T, p.y)), Scale(f.B, p.z));
    Coordinate(f.N, f.T, f.B, p.x, p.y, p.z, f.N);
    Coordinate(f.N, f.T, f.B, p.x, p.y, p.z, f.T);
    Coordinate(f.N, f.T, f.B, p.x, p.y, p.z, f.B);
    DotSymmetric(f.N, f.T);
    DotSymmetric(f.N, f.B);
    DotSymmetric(f.T, f.B);
    SquareIsSelfDot(f.N);
    SquareIsSelfDot(f.T);
    SquareIsSelfDot(f.B);
  }

  lemma Coordinate(n: Vector3, t: Vector3, b: Vector3, x: real, y: real, z: real, e: Vector3)
    ensures Dot(Add(Add(Scale(n, x), Scale(t, y)), Scale(b, z)), e) == x * Dot(n, e) + y * Dot(t, e) + z * Dot(b, e)
  {
    DotLinear(Add(Scale(n, x), Scale(t, y)), Scale(b, z), e, 1.0);
    DotLinear(Scale(n, x), Scale(t, y), e, 1.0);
    DotLinear(n, n, e, x);
    DotLinear(t, t, e, y);
    DotLinear(b, b, e, z);
  }

  // ------------------------------------------------------ spline anchors

  /** s[i], s[i + gap], s[i + 2 gap], ... while the index stays below |s|. */
  function Strided(s: seq<Vector3>, gap: nat, i: nat): (r: seq<Vector3>)
    requires 0 < gap
    decreases |s| - i
  {
    if i < |s| then [s[i]] + Strided(s, gap, i + gap) else []
  }

  /** Element k of the strided selection from i is s[i + k * gap]. */
  lemma {:induction false} StridedAt(s: seq<Vector3>, gap: nat, i: nat, k: nat)
    requires 0 < gap && k < |Strided(s, gap, i)|
    ensures i + Offset(k, gap) < |s|
    ensures Strided(s, gap, i)[k] == s[i + Offset(k, gap)]
    decreases |s| - i
  {
    if k > 0 {
      StridedAt(s, gap, i + gap, k - 1);
      OffsetShift(k - 1, gap);
    }
  }

  lemma {:induction false} OffsetShift(k: nat, n: nat)
    ensures n + Offset(k, n) == Offset(k + 1, n)
  {
  }

  /** From index j * gap of a sequence of m * gap + 1 elements, m - j + 1
      elements are selected. */
  lemma {:induction false} StridedCount(s: seq<Vector3>, gap: nat, j: nat, m: nat)
    requires 0 < gap && j <= m && |s| == Offset(m, gap) + 1
    ensures |Strided(s, gap, Offset(j, gap))| == m - j + 1
    decreases m - j
  {
    OffsetMonotone(j, m, gap);
    if j < m {
      StridedCount(s, gap, j + 1, m);
    } else {
      assert Offset(j, gap) + gap >= |s|;
    }
  }

  /** The curve CreateBeizeSpline produces into an empty output vector. */
  function FittedCurve(pts: seq<Vector3>): seq<Vector3> {
    if |pts| > 2 then Spline(pts, SplineStep) else []
  }

  /** gap = bzcnt / m_PartCnt. */
  function Gap(bz: seq<Vector3>): nat {
    |bz| / PartCnt
  }

  /** The fitted curve is either empty or has (N - 1) * 10 + 1 points, so
      its gap is N - 1 and positive. */
  lemma FittedCurveGap(pts: seq<Vector3>)
    ensures |pts| <= 2 ==> |FittedCurve(pts)| == 0
    ensures |pts| > 2 ==> |FittedCurve(pts)| == Offset(|pts| - 1, PartCnt) + 1
    ensures |pts| > 2 ==> Gap(FittedCurve(pts)) == |pts| - 1
  {
    if |pts| > 2 {
      SplineLength(pts, SplineStep);
      SamplesAtTenth();
      OffsetIsProduct(|pts| - 1, PartCnt);
    }
  }

  /** The anchors spline mode hands to UpdateTNBFrames: every gap-th point
      of the fitted curve. */
  function Resampled(pts: seq<Vector3>): seq<Vector3> {
    var bz := FittedCurve(pts);
    if |bz| == 0 then []
    else
      FittedCurveGap(pts);
      Strided(bz, Gap(bz), 0)
  }

  /** With three or more input points spline mode always yields
      m_PartCnt + 1 anchors; with fewer it yields none. */
  lemma ResampledCount(pts: seq<Vector3>)
    ensures |pts| <= 2 ==> Resampled(pts) == []
    ensures |pts| > 2 ==> |Resampled(pts)| == PartCnt + 1
  {
    FittedCurveGap(pts);
    if |pts| > 2 {
      var g := |pts| - 1;
      OffsetIsProduct(PartCnt, g);
      OffsetIsProduct(g, PartCnt);
      StridedCount(FittedCurve(pts), g, 0, PartCnt);
    }
  }

  /** Anchor k is curve point k * (N - 1). */
  lemma ResampledAt(pts: seq<Vector3>, k: nat)
    requires |pts| > 2 && k <= PartCnt
    ensures Offset(k, |pts| - 1) < |FittedCurve(pts)|
    ensures k < |Resampled(pts)| && Resampled(pts)[k] == FittedCurve(pts)[Offset(k, |pts| - 1)]
  {
    ResampledCount(pts);
    FittedCurveGap(pts);
    var bz := FittedCurve(pts);
    assert Resampled(pts) == Strided(bz, |pts| - 1, 0);
    StridedAt(bz, |pts| - 1, 0, k);
  }

  /** The first anchor is the first input point. */
  lemma ResampledFirst(pts: seq<Vector3>)
    requires |pts| > 2
    ensures 0 < |Resampled(pts)| && Resampled(pts)[0] == pts[0]
  {
    ResampledAt(pts, 0);
    SplineSegment(pts, SplineStep, 0);
  }

  /** The last anchor is the last input point. */
  lemma ResampledLast(pts: seq<Vector3>)
    requires |pts| > 2
    ensures |Resampled(pts)| == PartCnt + 1 && Resampled(pts)[PartCnt] == pts[|pts| - 1]
  {
    var g := |pts| - 1;
    ResampledCount(pts);
    ResampledAt(pts, PartCnt);
    OffsetIsProduct(PartCnt, g);
    OffsetIsProduct(g, PartCnt);
    assert Offset(PartCnt, g) == Offset(g, PartCnt);
    FittedCurveGap(pts);
    var bz := FittedCurve(pts);
    assert Offset(PartCnt, g) == |bz| - 1;
    SplineLength(pts, SplineStep);
    assert bz[|bz| - 1] == pts[g];
  }

  /** The points UpdateTNBFrames receives. */
  function FrameAnchors(pts: seq<Vector3>, splineFit: bool): seq<Vector3> {
    if splineFit then Resampled(pts) else pts
  }

  /** One ring per frame, in frame order. */
  function Rings(fs: seq<TNB>, sins: seq<real>, sins2: seq<real>, coss2: seq<real>, count: nat, xzScale: real, yScale: real): (rs: seq<seq<Vector3>>)
    requires 0 < |fs| ==> 0 < |sins| && 0 < count <= |sins2| && count <= |coss2|
    ensures |rs| == |fs|
  {
    seq(|fs|, i requires 0 <= i < |fs| => Ring(fs[i], sins, sins2, coss2, count, xzScale, yScale))
  }

  /** The example in dllmain.cpp: a bent centre line of four points. */
  function DemoPoints(): seq<Vector3> {
    [Vector3(0.0, 0.0, 0.0), Vector3(1.0, 0.0, 0.0), Vector3(1.0, 1.0, 0.0), Vector3(1.0, 1.0, 1.0)]
  }

  /** The dllmain.cpp configuration (32 samples, 12 periods, spline fitting)
      gives 11 anchors and, when they admit frames, 10 frames and so 10
      rings; each ring has 32 * 12 + 1 = 385 points, the last equal to the
      first. */
  lemma DemoScenario(f: TNB, lib: Numerics)
    ensures |FrameAnchors(DemoPoints(), true)| == 11
    ensures Transportable(lib, FrameAnchors(DemoPoints(), true)) ==>
      |Rings(Frames(lib, FrameAnchors(DemoPoints(), true)),
             Table(lib.sin, 32), Table(lib.sin, 32 * 12), Table(lib.cos, 32 * 12), 32 * 12, 0.1, 0.02)| == 10
    ensures var r := Ring(f, Table(lib.sin, 32), Table(lib.sin, 32 * 12), Table(lib.cos, 32 * 12), 32 * 12, 0.1, 0.02);
      |r| == 385 && r[384] == r[0]
  {
    ResampledCount(DemoPoints());
  }

  // ------------------------------------------------------------ generator

  /** vector::resize(n, 0): keep the first n entries, pad with zeros. */
  function Resize(s: seq<real>, n: nat): (r: seq<real>)
    ensures |r| == n
    ensures forall i :: 0 <= i < n ==> r[i] == if i < |s| then s[i] else 0.0
  {
    if n <= |s| then s[..n] else s + seq(n - |s|, _ => 0.0)
  }

  class StentFrameGenerator {
    const lib: Numerics
    /** m_SampleCnt: samples per 2 pi. */
    const sampleCnt: nat
    /** m_PeriodCnt: sine periods per ring. */
    const periodCnt: nat
    /** m_PartCnt */
    const partCnt: nat
    const splineFit: bool
    const xzScale: real
    const yScale: real

    var sins: seq<real>
    var coss: seq<real>
    var sins2: seq<real>
    var coss2: seq<real>
    var frames: seq<TNB>

    /** The tables hold what CacheSinsAndCoss computes. */
    ghost predicate Valid()
      reads this
    {
      partCnt == PartCnt
      && sins == Table(lib.sin, sampleCnt) && coss == Table(lib.cos, sampleCnt)
      && sins2 == Table(lib.sin, sampleCnt * periodCnt) && coss2 == Table(lib.cos, sampleCnt * periodCnt)
    }

    constructor (lib: Numerics, sampleCnt: nat, periodCnt: nat, xzScale: real, yScale: real, splineFit: bool)
      ensures this.lib == lib && this.sampleCnt == sampleCnt && this.periodCnt == periodCnt
      ensures this.xzScale == xzScale && this.yScale == yScale && this.splineFit == splineFit
      ensures frames == []
      ensures Valid()
    {
      this.lib := lib;
      this.sampleCnt := sampleCnt;
      this.periodCnt := periodCnt;
      this.partCnt := PartCnt;
      this.xzScale := xzScale;
      this.yScale := yScale;
      this.splineFit := splineFit;
      sins, coss, sins2, coss2 := [], [], [], [];
      frames := [];
      new;
      CacheSinsAndCoss();
    }

    /** Resizes the four tables and fills them with sin and cos at equal
        steps of 2 pi / size. */
    method CacheSinsAndCoss()
      modifies this`sins, this`coss, this`sins2, this`coss2
      ensures sins == Table(lib.sin, sampleCnt) && coss == Table(lib.cos, sampleCnt)
      ensures sins2 == Table(lib.sin, sampleCnt * periodCnt) && coss2 == Table(lib.cos, sampleCnt * periodCnt)
    {
      sins, coss := FillSinsAndCoss(sins, coss, sampleCnt);
      var total := sampleCnt * periodCnt;
      sins2, coss2 := FillSinsAndCoss(sins2, coss2, total);
    }

    /** One half of CacheSinsAndCoss: resize a sin table and a cos table to
        n entries and set entry i to sin and cos of i * (2 pi / n). */
    method FillSinsAndCoss(s0: seq<real>, c0: seq<real>, n: nat) returns (s: seq<real>, c: seq<real>)
      ensures s == Table(lib.sin, n) && c == Table(lib.cos, n)
    {
      s := Resize(s0, n);
      c := Resize(c0, n);
      var drad := if n == 0 then 0.0 else TwoPi / n as real;
      var i := 0;
      while i < n
        invariant 0 <= i <= n
        invariant |s| == n && |c| == n
        invariant s[..i] == Table(lib.sin, n)[..i]
        invariant c[..i] == Table(lib.cos, n)[..i]
      {
        var rad := i as real * drad;
        assert rad == Angle(i, n);
        s := s[i := lib.sin(rad)];
        c := c[i := lib.cos(rad)];
        i := i + 1;
      }
      assert s[..n] == s && c[..n] == c;
    }

    /** Lays out periodCnt periods of sampleCnt local points, overwrites
        their x and z from the second tables, maps them through the frame
        and closes the ring. */
    method CreateStentLine(tnb: TNB, xzScale: real, yScale: real) returns (pts: seq<Vector3>)
      requires Valid() && 0 < sampleCnt && 0 < periodCnt
      ensures pts == Ring(tnb, sins, sins2, coss2, sampleCnt * periodCnt, xzScale, yScale)
    {
      var total := sampleCnt * periodCnt;
      var flat := LayOutPeriods(sins, periodCnt, yScale);
      var local := WrapAround(flat, sins2, coss2, xzScale);
      var world := MapToWorld(tnb, local);
      forall k | 0 <= k < total
        ensures world[k] == ToWorld(tnb, LocalPoint(sins, sins2, coss2, k, xzScale, yScale))
      {
        assert local[k] == LocalPoint(sins, sins2, coss2, k, xzScale, yScale);
      }
      pts := world + [world[0]];
      RingOfPoints(tnb, sins, sins2, coss2, total, xzScale, yScale, world);
    }

    /** Rebuilds m_Frames: one frame per segment of pts. */
    method UpdateTNBFrames(pts: seq<Vector3>)
      requires Transportable(lib, pts)
      modifies this`frames
      ensures frames == Frames(lib, pts)
    {
      frames := [];
      var ptCnt := |pts|;
      var i := 0;
      while i < ptCnt - 1
        invariant 0 <= i && (i == 0 || i < ptCnt)
        invariant |frames| == i && FramesSoFar(lib, pts, frames)
      {
        var tnb := NextFrame(lib, pts, frames);
        frames := frames + [tnb];
        i := i + 1;
      }
      FramesSoFarComplete(lib, pts, frames);
    }

    /** Empty input leaves oPts alone. Otherwise the anchors (the input, or
        the spline-fitted curve subsampled every gap points) get one frame
        per segment, and oPts is replaced by one ring per frame. */
    method CreateStentFrame(iPts: seq<Vector3>, oPts: seq<seq<Vector3>>) returns (res: seq<seq<Vector3>>)
      requires Valid()
      requires 0 < |iPts| ==> Transportable(lib, FrameAnchors(iPts, splineFit))
      requires 2 <= |FrameAnchors(iPts, splineFit)| ==> 0 < sampleCnt && 0 < periodCnt
      modifies this`frames
      ensures |iPts| == 0 ==> res == oPts && frames == old(frames)
      ensures 0 < |iPts| ==> frames == Frames(lib, FrameAnchors(iPts, splineFit))
      ensures 0 < |iPts| ==> res == Rings(frames, sins, sins2, coss2, sampleCnt * periodCnt, xzScale, yScale)
    {
      if |iPts| == 0 {
        return oPts;
      }
      if splineFit {
        var realipts := FitAnchors(iPts);
        UpdateTNBFrames(realipts);
      } else {
        UpdateTNBFrames(iPts);
      }
      res := CreateStentLines();
    }

    /** The last loop of CreateStentFrame: one ring per frame, in frame
        order. */
    method CreateStentLines() returns (res: seq<seq<Vector3>>)
      requires Valid() && (0 < |frames| ==> 0 < sampleCnt && 0 < periodCnt)
      ensures res == Rings(frames, sins, sins2, coss2, sampleCnt * periodCnt, xzScale, yScale)
    {
      if 0 < |frames| {
        ProductPositive(sampleCnt, periodCnt);
      }
      res := [];
      var i := 0;
      while i < |frames|
        invariant 0 <= i <= |frames|
        invariant res == Rings(frames[..i], sins, sins2, coss2, sampleCnt * periodCnt, xzScale, yScale)
      {
        var ring := CreateStentLine(frames[i], xzScale, yScale);
        res := res + [ring];
        i := i + 1;
      }
      assert frames[..i] == frames;
    }
  }

  /** A product of two positive counts is positive. */
  lemma ProductPositive(a: nat, b: nat)
    requires 0 < a && 0 < b
    ensures 0 < a * b
  {
  }

  /** The spline branch of CreateStentFrame: fit a Bezier spline with step
      0.1 through the points, then keep every gap-th curve point with gap =
      bzcnt / m_PartCnt. */
  method FitAnchors(iPts: seq<Vector3>) returns (realipts: seq<Vector3>)
    ensures realipts == Resampled(iPts)
  {
    var bsg := new BeizerSplineGenerator(SplineStep);
    var bzpts := bsg.CreateBeizeSpline(iPts, []);
    assert bzpts == FittedCurve(iPts);
    var bzcnt := |bzpts|;
    var gap := bzcnt / PartCnt;
    FittedCurveGap(iPts);
    realipts := [];
    if bzcnt > 0 {
      realipts := Subsample(bzpts, gap);
    }
  }

  /** Point k of the first loop of CreateStentLine, with n = |sins|
      samples per period: x = 4 * (period) + phase * 4 / n, y = yScale *
      sins[phase], z left at zero. */
  function Laid(sins: seq<real>, k: nat, yScale: real): Vector3
    requires 0 < |sins|
  {
    Vector3(4.0 / |sins| as real * Phase(k, |sins|) as real + Cycle(k, |sins|) as real * 4.0,
            yScale * sins[Phase(k, |sins|)], 0.0)
  }

  /** The body of the loop of UpdateTNBFrames: given frames 0 .. i - 1,
      frame i. */
  method NextFrame(lib: Numerics, pts: seq<Vector3>, frames: seq<TNB>) returns (tnb: TNB)
    requires Transportable(lib, pts) && |frames| + 1 < |pts|
    requires FramesSoFar(lib, pts, frames)
    ensures tnb == FrameAt(lib, pts, |frames|)
    ensures FramesSoFar(lib, pts, frames + [tnb])
  {
    var i := |frames|;
    FrameSteps(lib, pts, i);
    if i == 0 {
      tnb := BootstrapFrame(lib, pts[i], pts[i + 1]);
    } else {
      tnb := TransportFrame(lib, frames[i - 1], pts[i], pts[i + 1]);
    }
    assert (frames + [tnb])[..i] == frames;
  }

  /** The body of UpdateTNBFrames for i = 0: T from p0 to p1, N and B from
      the seed vector. */
  method BootstrapFrame(lib: Numerics, p0: Vector3, p1: Vector3) returns (tnb: TNB)
    requires TangentOk(lib, p0, p1) && BootstrapOk(lib, Tangent(lib, p0, p1))
    ensures tnb == FirstFrame(lib, Tangent(lib, p0, p1), p0)
  {
    var t := Normalize(lib, Sub(p1, p0));
    var tmp := Normalize(lib, Vector3(t.x + 0.5, t.y - 0.5, t.z));
    var n := Normalize(lib, Cross(tmp, t));
    var b := Normalize(lib, Cross(n, t));
    tnb := TNB(t, n, b, p0);
  }

  /** The body of UpdateTNBFrames for i > 0: N and B of the previous frame
      copied when the tangent turns by less than RadianEps, rotated
      otherwise. */
  method TransportFrame(lib: Numerics, prev: TNB, p0: Vector3, p1: Vector3) returns (tnb: TNB)
    requires TangentOk(lib, p0, p1) && TransportOk(lib, prev.T, Tangent(lib, p0, p1))
    ensures tnb == Transport(lib, prev, Tangent(lib, p0, p1), p0)
  {
    var t := Normalize(lib, Sub(p1, p0));
    var n, b;
    var rad := GetRadianBetween(lib, prev.T, t);
    if rad < RadianEps {
      n := prev.N;
      b := prev.B;
    } else {
      var axis := Normalize(lib, Cross(prev.T, t));
      var rotMat := Rotate(lib, rad, axis);
      n := Xyz(MulVec(rotMat, FromVector3(prev.N, 0.0)));
      b := Xyz(MulVec(rotMat, FromVector3(prev.B, 0.0)));
    }
    tnb := TNB(t, n, b, p0);
  }

  /** The first loop of CreateStentLine: periodCnt periods of |sins| points. */
  method LayOutPeriods(sins: seq<real>, periodCnt: nat, yScale: real) returns (pts: seq<Vector3>)
    requires 0 < |sins|
    ensures |pts| == |sins| * periodCnt
    ensures forall k :: 0 <= k < |pts| ==> pts[k] == Laid(sins, k, yScale)
  {
    var n := |sins|;
    var dx := 4.0 / n as real;
    pts := [];
    var j := 0;
    while j < periodCnt
      invariant 0 <= j <= periodCnt
      invariant |pts| == Offset(j, n)
      invariant forall k :: 0 <= k < |pts| ==> pts[k] == Laid(sins, k, yScale)
    {
      var xBase := j as real * 4.0;
      var i := 0;
      while i < n
        invariant 0 <= i <= n
        invariant |pts| == Offset(j, n) + i
        invariant forall k :: 0 <= k < |pts| ==> pts[k] == Laid(sins, k, yScale)
      {
        OffsetPhase(j, n, i);
        var p := Vector3(dx * i as real + xBase, yScale * sins[i], 0.0);
        assert p == Laid(sins, |pts|, yScale);
        pts := pts + [p];
        i := i + 1;
      }
      j := j + 1;
    }
    OffsetIsProduct(periodCnt, n);
  }

  /** The second loop of CreateStentLine: point k gets x = xzScale * sins2[k]
      and z = xzScale * coss2[k]; y is kept. */
  method WrapAround(pts: seq<Vector3>, sins2: seq<real>, coss2: seq<real>, xzScale: real) returns (r: seq<Vector3>)
    requires |pts| <= |sins2| && |pts| <= |coss2|
    ensures |r| == |pts|
    ensures forall k :: 0 <= k < |r| ==> r[k] == Vector3(xzScale * sins2[k], pts[k].y, xzScale * coss2[k])
  {
    r := pts;
    var i := 0;
    while i < |r|
      invariant 0 <= i <= |r| && |r| == |pts|
      invariant forall k :: 0 <= k < i ==> r[k] == Vector3(xzScale * sins2[k], pts[k].y, xzScale * coss2[k])
      invariant forall k :: i <= k < |r| ==> r[k] == pts[k]
    {
      r := r[i := r[i].(x := xzScale * sins2[i], z := xzScale * coss2[i])];
      i := i + 1;
    }
  }

  /** The third loop of CreateStentLine: every point from frame
      coordinates to world space. */
  method MapToWorld(f: TNB, pts: seq<Vector3>) returns (r: seq<Vector3>)
    ensures |r| == |pts|
    ensures forall k :: 0 <= k < |r| ==> r[k] == ToWorld(f, pts[k])
  {
    var vx := f.N;
    var vy := f.T;
    var vz := f.B;
    r := pts;
    var i := 0;
    while i < |r|
      invariant 0 <= i <= |r| && |r| == |pts|
      invariant forall k :: 0 <= k < i ==> r[k] == ToWorld(f, pts[k])
      invariant forall k :: i <= k < |r| ==> r[k] == pts[k]
    {
      var p := r[i];
      r := r[i := Add(Add(Add(f.O, Scale(vx, p.x)), Scale(vy, p.y)), Scale(vz, p.z))];
      i := i + 1;
    }
  }

  /** The loop `for (i = 0; i < bzcnt; i += gap)` of CreateStentFrame. */
  method Subsample(bz: seq<Vector3>, gap: nat) returns (r: seq<Vector3>)
    requires 0 < gap
    ensures r == Strided(bz, gap, 0)
  {
    r := [];
    var i := 0;
    while i < |bz|
      invariant r + Strided(bz, gap, i) == Strided(bz, gap, 0)
      decreases |bz| - i
    {
      r := r + [bz[i]];
      i := i + gap;
    }
  }
}
