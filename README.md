# StentFrameGenerator in Dafny

This project models the core of StentFrameGenerator, a small C++ library. It
sweeps a sinusoidal "stent" ring pattern along a 3-D centre line. The library
has three parts, and each has its own Dafny module:

- `SiMath` (`SiMath.dfy`) models the vector and matrix algebra of `SiMath.h`
  that the stent pipeline uses: `Vector3` arithmetic, `cross`, `dot`, `square`,
  `normalize`, the lexicographic `operator<`, `IsZero`, `Vector4(v3, w)`,
  `xyz()`, `perspectiveDiv`, `Matrix4()`, `Matrix4(val)`, `identify`,
  `translate`, `rotate`, `Matrix4 * Vector4`, `GetRadianBetween` and the
  degree/radian conversions.
  - The in-place operators (`+=`, `-=`, `/=`, `SetZero`, `perspectiveDiv`,
    `identify`) are methods over the member array.
  - Everything else is a function over values.
- `BeizerSpline` (`BeizerSpline.dfy`) models
  `BeizerSplineGenerator::CreateBeizeSpline`, which works in three steps:
  - it builds two tangent handles per anchor into the buffer
    `m_CachedMidpts`;
  - it samples one cubic Bernstein segment per pair of consecutive anchors,
    at t = 0, step, 2 step, … while t < 1;
  - it appends the last anchor.
- `StentFrame` (`StentFrameGenerator.dfy`) models the class
  `StentFrameGenerator`:
  - `CacheSinsAndCoss` fills the sine and cosine tables;
  - `UpdateTNBFrames` builds one moving frame (T, N, B, O) per centre-line
    segment, bootstrapping the first and copying or rotating each later one;
  - `CreateStentLine` lays out one closed ring of points in a frame;
  - `CreateStentFrame` ties these together, optionally spline-fitting the
    centre line and keeping every `gap`-th curve point.

All floating-point values are modelled as exact `real`s. The C math functions
`sin`, `cos`, `acos` and `sqrt` are not computed. They are fields of a
`Numerics` value passed in. The facts the code relies on (an exact square
root, `acos` in [0, pi], sin² + cos² = 1) are predicates, required only by
the lemmas that need them.

Each loop of the source is a method with a `while` or `for` loop. Each method is
proved against a specification function:

| method | specification function |
|---|---|
| `CacheHandles` | `Handles` |
| `SampleSegments` / `SampleSegment` | `Blocks` / `CurveSamples` |
| `UpdateTNBFrames` | `Frames` |
| `CreateStentLine` | `Ring` |
| `CreateStentFrame` | `Rings` of `Frames` of `FrameAnchors` |

The properties the source promises are lemmas about those functions.

Two details of the code that the model keeps:

- In `CreateStentLine` (StentFrameGenerator.cpp:46-47) x comes from the
  second sine table and z from the second cosine table.
- `CreateBeizeSpline` with two or fewer points returns silently
  (BeizerSpline.cpp:11-12), leaving the output vector as it was.

With the step 0.1 that `CreateStentFrame` uses, each Bezier segment gives
exactly 10 samples over the reals. So for N ≥ 3 input points the fitted
curve has 10 (N − 1) + 1 points, the gap is N − 1, and spline mode always
yields 11 anchors. The first anchor is the first input point and the last is
the last one. Spline mode therefore always gives 10 frames and 10 rings.

## Model

| member | source | states |
|---|---|---|
| SiMath.IsZero | StentFrameGenerator/StentFrameGenerator/SiMath.h:15-19 | IsZero: strictly inside (-Eps, Eps); UnitLengthsNotZero and TangentsPassAssertion use it |
| SiMath.Add | StentFrameGenerator/StentFrameGenerator/SiMath.h:269-273 | operator +, component by component; AddAssign and AddThenSub relate it to += and -= |
| SiMath.Sub | StentFrameGenerator/StentFrameGenerator/SiMath.h:275-279 | operator -, component by component; AddThenSub proves it undoes Add |
| SiMath.Scale | StentFrameGenerator/StentFrameGenerator/SiMath.h:287-291 | operator * by a scalar; ScaleThenDiv proves /= undoes it |
| SiMath.Square | StentFrameGenerator/StentFrameGenerator/SiMath.h:313-317 | square; SquareIsSelfDot relates it to dot |
| SiMath.Dot | StentFrameGenerator/StentFrameGenerator/SiMath.h:334-338 | dot; DotSymmetric and DotLinear state its algebra |
| SiMath.Cross | StentFrameGenerator/StentFrameGenerator/SiMath.h:326-332 | cross; CrossOrthogonal and CrossAntiCommutative state its algebra |
| SiMath.Length | StentFrameGenerator/StentFrameGenerator/SiMath.h:306-311 | length as sqrt of square, with sqrt a parameter |
| SiMath.Normalize | StentFrameGenerator/StentFrameGenerator/SiMath.h:319-324 | normalize as scaling by the reciprocal length; NormalizeUnit, NormalizeParallel and NormalizeSameDirection state its properties |
| SiMath.Less | StentFrameGenerator/StentFrameGenerator/SiMath.h:183-188 | the lexicographic operator<; LessIrreflexive, LessTransitive and LessTrichotomy prove it a strict total order |
| SiMath.FromVector3 | StentFrameGenerator/StentFrameGenerator/SiMath.h:367-373 | Vector4(v3, w) |
| SiMath.Xyz | StentFrameGenerator/StentFrameGenerator/SiMath.h:424-427 | Vector4::xyz() |
| SiMath.Identity | StentFrameGenerator/StentFrameGenerator/SiMath.h:705-711 | the default Matrix4(); ScalarOneIsIdentity proves it maps every vector to itself |
| SiMath.ScalarMatrix | StentFrameGenerator/StentFrameGenerator/SiMath.h:713-718 | Matrix4(val) |
| SiMath.Translate | StentFrameGenerator/StentFrameGenerator/SiMath.h:920-934 | translate; TranslatePointAndDirection states its effect on points and directions |
| SiMath.Rotate | StentFrameGenerator/StentFrameGenerator/SiMath.h:886-917 | rotate; RotateZeroIsIdentity, RotateIsLinear and RotateFixesAxis state its properties |
| SiMath.MulVec | StentFrameGenerator/StentFrameGenerator/SiMath.h:1016-1023 | Matrix4 * Vector4 in column-major order |
| SiMath.GetRadianBetween | StentFrameGenerator/StentFrameGenerator/SiMath.h:1325-1337 | the clamped acos of the normalized dot product; RadianBetweenRange and RadianBetweenSymmetric state its range and symmetry |
| SiMath.Degree2Radian | StentFrameGenerator/StentFrameGenerator/SiMath.h:1357-1361 | Degree2Radian; DegreeRadianRoundTrip proves Radian2Degree its inverse |
| SiMath.Radian2Degree | StentFrameGenerator/StentFrameGenerator/SiMath.h:1363-1367 | Radian2Degree; DegreeRadianRoundTrip proves Degree2Radian its inverse |
| BeizerSpline.HandleOffset | StentFrameGenerator/StentFrameGenerator/BeizerSpline.cpp:20-27 | the clamped handle offset; HandleOffsetClamped states its value at both ends and in between |
| BeizerSpline.Weights | StentFrameGenerator/StentFrameGenerator/BeizerSpline.cpp:47-50 | the Bernstein weights c0 … c3; WeightsSumToOne proves they sum to 1 |
| BeizerSpline.BezierPoint | StentFrameGenerator/StentFrameGenerator/BeizerSpline.cpp:47-52 | the blend of the four control points; BezierEnds and BezierConstant state its properties |
| BeizerSpline.SegmentOf | StentFrameGenerator/StentFrameGenerator/BeizerSpline.cpp:36-41 | the control points of segment i; SampleSegments proves they are the ones read from the handle buffer |
| BeizerSpline.Param | StentFrameGenerator/StentFrameGenerator/BeizerSpline.cpp:43-55 | the value of t after k executions of t += step from t = 0; ParamIsProduct and ParamMonotone state its properties |
| BeizerSpline.CurveSamples | StentFrameGenerator/StentFrameGenerator/BeizerSpline.cpp:43-56 | the samples of one segment: SamplesPerSegment(step) points, sample k at t = Param(step, k); SampleSegment proves the t loop produces them |
| BeizerSpline.Blocks | StentFrameGenerator/StentFrameGenerator/BeizerSpline.cpp:33-58 | one block of samples per consecutive anchor pair (N - 1 blocks); SampleSegments proves the segment loop produces them and SplineSegment places them in the output |
| BeizerSpline.Spline | StentFrameGenerator/StentFrameGenerator/BeizerSpline.cpp:33-59 | the whole output curve; SplineLength and SplineSegment state its length, layout and last point |
| StentFrame.Tangent | StentFrameGenerator/StentFrameGenerator/StentFrameGenerator.cpp:105 | T = normalize(p1 - p0) |
| StentFrame.TransportRotation | StentFrameGenerator/StentFrameGenerator/StentFrameGenerator.cpp:114-123 | rotate(rad, normalize(cross(prevT, T))); TransportAxis states that it fixes its axis |
| StentFrame.LocalPoint | StentFrameGenerator/StentFrameGenerator/StentFrameGenerator.cpp:32-48 | local point k after the first two loops of CreateStentLine; PeriodRepeats and LocalOnCircle state its properties |
| StentFrame.ToWorld | StentFrameGenerator/StentFrameGenerator/StentFrameGenerator.cpp:53 | O + N x + T y + B z; WorldToLocal proves it invertible in an orthonormal frame |
| StentFrame.FittedCurve | StentFrameGenerator/StentFrameGenerator/StentFrameGenerator.cpp:70-72 | the spline fit with step 0.1, empty for N ≤ 2 because CreateBeizeSpline returns early; FittedCurveGap states its length |
| StentFrame.Gap | StentFrameGenerator/StentFrameGenerator/StentFrameGenerator.cpp:75 | gap = bzcnt / m_PartCnt by integer division; FittedCurveGap proves it is N - 1 |
| StentFrame.Strided | StentFrameGenerator/StentFrameGenerator/StentFrameGenerator.cpp:77-81 | the stride selection; StridedAt and StridedCount state its entries and length |
| StentFrame.Resampled | StentFrameGenerator/StentFrameGenerator/StentFrameGenerator.cpp:68-81 | the spline-mode anchors; ResampledCount, ResampledFirst and ResampledLast state them |
| StentFrame.FrameAnchors | StentFrameGenerator/StentFrameGenerator/StentFrameGenerator.cpp:68-85 | the points UpdateTNBFrames receives, with or without spline fitting |
| SiMath.CrossOrthogonal | StentFrameGenerator/StentFrameGenerator/SiMath.h:327-338 | cross(a, b) is orthogonal to a and to b |
| SiMath.CrossAntiCommutative | StentFrameGenerator/StentFrameGenerator/SiMath.h:327-332 | cross(b, a) = -cross(a, b), and cross(a, a) is the zero vector |
| SiMath.DotSymmetric | StentFrameGenerator/StentFrameGenerator/SiMath.h:335-338 | dot(a, b) = dot(b, a) |
| SiMath.SquareIsSelfDot | StentFrameGenerator/StentFrameGenerator/SiMath.h:313-317 | square(v) = dot(v, v); it is never negative, and it is zero exactly for the zero vector |
| SiMath.DotLinear | StentFrameGenerator/StentFrameGenerator/SiMath.h:335-338 | dot is linear in its first argument (scaling and addition) |
| SiMath.NormalizeUnit | StentFrameGenerator/StentFrameGenerator/SiMath.h:306-324 | with an exact sqrt, normalize of a non-zero-length vector has square 1 and length 1 |
| SiMath.NormalizeParallel | StentFrameGenerator/StentFrameGenerator/SiMath.h:319-324 | normalize(v) is parallel to v, whatever sqrt returns: their cross product is zero |
| SiMath.NormalizeSameDirection | StentFrameGenerator/StentFrameGenerator/SiMath.h:319-324 | with an exact sqrt, normalize(v) points the same way as v: dot(normalize(v), v) > 0 |
| SiMath.LessIrreflexive | StentFrameGenerator/StentFrameGenerator/SiMath.h:183-188 | no vector is below itself under the lexicographic operator< |
| SiMath.LessTransitive | StentFrameGenerator/StentFrameGenerator/SiMath.h:183-188 | operator< is transitive |
| SiMath.LessTrichotomy | StentFrameGenerator/StentFrameGenerator/SiMath.h:183-188 | for distinct vectors exactly one of a < b and b < a holds |
| SiMath.UnitLengthsNotZero | StentFrameGenerator/StentFrameGenerator/SiMath.h:15-19 | with an exact sqrt, the length product of two unit vectors is 1, so it is not IsZero |
| SiMath.AddAssign | StentFrameGenerator/StentFrameGenerator/SiMath.h:196-201 | after v += r the member array holds old v + r, computed component by component in place |
| SiMath.SubAssign | StentFrameGenerator/StentFrameGenerator/SiMath.h:202-207 | after v -= r the member array holds old v - r |
| SiMath.DivAssign | StentFrameGenerator/StentFrameGenerator/SiMath.h:214-219 | after v /= val every component is divided by val, which is old v scaled by 1 / val |
| SiMath.DivAssignByComponent | StentFrameGenerator/StentFrameGenerator/SiMath.h:214-219 | v /= v[k] in place, with the divisor a reference into v: components up to k are divided by the original v[k], v[k] becomes 1, later components keep their value |
| SiMath.SetZero | StentFrameGenerator/StentFrameGenerator/SiMath.h:226-230 | after SetZero the member array holds the zero vector |
| SiMath.AddThenSub | StentFrameGenerator/StentFrameGenerator/SiMath.h:196-207 | subtracting r after adding r gives back the original vector |
| SiMath.ScaleThenDiv | StentFrameGenerator/StentFrameGenerator/SiMath.h:214-219 | dividing by a non-zero val undoes scaling by val |
| SiMath.PerspectiveDiv | StentFrameGenerator/StentFrameGenerator/SiMath.h:449-455 | with w = 0 the array is unchanged; otherwise x, y and z are divided by the original w and w becomes 1 |
| SiMath.Identify | StentFrameGenerator/StentFrameGenerator/SiMath.h:837-841 | after identify the sixteen entries are those of the identity matrix |
| SiMath.ScalarOneIsIdentity | StentFrameGenerator/StentFrameGenerator/SiMath.h:705-718 | Matrix4(1) equals the default Matrix4(), and that matrix maps every Vector4 to itself |
| SiMath.TranslatePointAndDirection | StentFrameGenerator/StentFrameGenerator/SiMath.h:920-934 | translate(t) moves a point (w = 1) to p + t and leaves a direction (w = 0) unchanged |
| SiMath.RotateZeroIsIdentity | StentFrameGenerator/StentFrameGenerator/SiMath.h:894-895 | rotate(0, n) is the identity matrix, for any n |
| SiMath.RotateIsLinear | StentFrameGenerator/StentFrameGenerator/SiMath.h:886-917 | every rotate matrix has last row (0, 0, 0, 1) and no translation, so directions keep w = 0, points keep w = 1, and both are moved alike |
| SiMath.RotateFixesAxis | StentFrameGenerator/StentFrameGenerator/SiMath.h:886-917 | with an exact sqrt, rotate(radian, n) leaves normalize(n) where it is, whatever sin and cos return |
| SiMath.AxisAngleFixesAxis | StentFrameGenerator/StentFrameGenerator/SiMath.h:904-915 | the axis-angle entries map a unit axis to itself |
| SiMath.AxisAngleOnAxis | StentFrameGenerator/StentFrameGenerator/SiMath.h:904-915 | the axis-angle entries map any axis a to a scaled by (1 - c) square(a) + c; the sine terms cancel |
| SiMath.RadianBetweenRange | StentFrameGenerator/StentFrameGenerator/SiMath.h:1326-1337 | when acos maps [-1, 1] into [0, pi], GetRadianBetween lies in [0, pi] |
| SiMath.RadianBetweenSymmetric | StentFrameGenerator/StentFrameGenerator/SiMath.h:1326-1337 | GetRadianBetween does not depend on the order of its arguments |
| SiMath.DegreeRadianRoundTrip | StentFrameGenerator/StentFrameGenerator/SiMath.h:1357-1367 | Radian2Degree(Degree2Radian(d)) = d and Degree2Radian(Radian2Degree(r)) = r |
| BeizerSpline.Handles | StentFrameGenerator/StentFrameGenerator/BeizerSpline.cpp:14-31 | the handle buffer holds exactly 2 N entries |
| BeizerSpline.HandlePair | StentFrameGenerator/StentFrameGenerator/BeizerSpline.cpp:18-31 | entries 2 i and 2 i + 1 of the buffer are anchor i minus and plus its offset |
| BeizerSpline.HandleOffsetClamped | StentFrameGenerator/StentFrameGenerator/BeizerSpline.cpp:20-27 | the offset is (next - p) / 4 at the first anchor, (p - prev) / 4 at the last, and (next - prev) / 4 in between |
| BeizerSpline.HandlesAroundAnchor | StentFrameGenerator/StentFrameGenerator/BeizerSpline.cpp:24-30 | the two handles of an anchor average to the anchor and lie symmetrically around it |
| BeizerSpline.WeightsSumToOne | StentFrameGenerator/StentFrameGenerator/BeizerSpline.cpp:47-50 | the Bernstein weights c0 … c3 sum to 1 for every t |
| BeizerSpline.BezierEnds | StentFrameGenerator/StentFrameGenerator/BeizerSpline.cpp:47-52 | a segment's point at t = 0 is its first control point and at t = 1 its last |
| BeizerSpline.BezierConstant | StentFrameGenerator/StentFrameGenerator/BeizerSpline.cpp:47-52 | a segment whose four control points coincide is that point for every t |
| BeizerSpline.ParamIsProduct | StentFrameGenerator/StentFrameGenerator/BeizerSpline.cpp:43-55 | after k executions of t += step from 0, t = k step |
| BeizerSpline.ParamMonotone | StentFrameGenerator/StentFrameGenerator/BeizerSpline.cpp:43-55 | for a positive step, t strictly increases from one iteration to the next |
| BeizerSpline.SamplesPerSegment | StentFrameGenerator/StentFrameGenerator/BeizerSpline.cpp:45-55 | the loop `while (t < 1)` runs n ≥ 1 times, where n is the least count with t ≥ 1 |
| BeizerSpline.SamplesAtTenth | StentFrameGenerator/StentFrameGenerator/BeizerSpline.cpp:45-55 | with step 0.1 every segment gives exactly 10 samples |
| BeizerSpline.ConcatLayout | StentFrameGenerator/StentFrameGenerator/BeizerSpline.cpp:36-57 | when each segment gives n samples, segment i's samples sit at indices i n up to (i + 1) n of the output |
| BeizerSpline.SplineLength | StentFrameGenerator/StentFrameGenerator/BeizerSpline.cpp:36-59 | the output has (N - 1) n + 1 points and ends with the last anchor |
| BeizerSpline.SplineSegment | StentFrameGenerator/StentFrameGenerator/BeizerSpline.cpp:36-57 | the output slice of segment i is that segment's samples, and it starts with anchor i |
| BeizerSpline.SegmentStartsAtAnchor | StentFrameGenerator/StentFrameGenerator/BeizerSpline.cpp:43-53 | the first sample of segment i (t = 0) is anchor i |
| BeizerSpline.BeizerSplineGenerator.constructor | StentFrameGenerator/StentFrameGenerator/BeizerSpline.cpp:3-5 | stores the step and starts with an empty handle buffer |
| BeizerSpline.BeizerSplineGenerator.CacheHandles | StentFrameGenerator/StentFrameGenerator/BeizerSpline.cpp:14-31 | the cleared buffer is refilled with the handle pairs of all anchors, in anchor order |
| BeizerSpline.BeizerSplineGenerator.CreateBeizeSpline | StentFrameGenerator/StentFrameGenerator/BeizerSpline.cpp:7-60 | N ≤ 2 leaves the output and the buffer as they were; otherwise the buffer is Handles and the output is replaced by the whole resampled curve |
| BeizerSpline.SampleSegments | StentFrameGenerator/StentFrameGenerator/BeizerSpline.cpp:36-57 | reading control points 2 i + 1 and 2 (i + 1) from the buffer gives each segment's samples, in segment order |
| BeizerSpline.SampleSegment | StentFrameGenerator/StentFrameGenerator/BeizerSpline.cpp:43-56 | the t loop appends the segment's point at every parameter it visits below 1 |
| StentFrame.FirstFrame | StentFrameGenerator/StentFrameGenerator/StentFrameGenerator.cpp:105-111 | the bootstrapped frame keeps the given tangent and origin |
| StentFrame.Transport | StentFrameGenerator/StentFrameGenerator/StentFrameGenerator.cpp:112-128 | a transported frame keeps the given tangent and origin |
| StentFrame.FrameAt | StentFrameGenerator/StentFrameGenerator/StentFrameGenerator.cpp:100-130 | frame i has origin pts[i] and the normalized tangent of segment i |
| StentFrame.Frames | StentFrameGenerator/StentFrameGenerator/StentFrameGenerator.cpp:97-130 | there are max(0, N - 1) frames, frame i being FrameAt i |
| StentFrame.FrameSteps | StentFrameGenerator/StentFrameGenerator/StentFrameGenerator.cpp:105-126 | helper for the proof of NextFrame: frame 0 is the bootstrapped frame of the first tangent; frame i > 0 is frame i - 1 transported onto tangent i |
| StentFrame.CopyOrRotate | StentFrameGenerator/StentFrameGenerator/StentFrameGenerator.cpp:114-126 | below a turn of 1e-5 rad, N and B are copied from the previous frame; otherwise both are the previous ones rotated about normalize(cross(T_prev, T)) |
| StentFrame.StraightRunKeepsNormals | StentFrameGenerator/StentFrameGenerator/StentFrameGenerator.cpp:114-119 | along a run of turns all below 1e-5 rad, N and B never change |
| StentFrame.TransportAxis | StentFrameGenerator/StentFrameGenerator/StentFrameGenerator.cpp:122-123 | the rotation axis is orthogonal to both tangents and is fixed by the rotation |
| StentFrame.TangentsPassAssertion | StentFrameGenerator/StentFrameGenerator/StentFrameGenerator.cpp:114 | with an exact sqrt, the assertion of GetRadianBetween holds for any two segment tangents |
| StentFrame.FirstFrameOrthogonal | StentFrameGenerator/StentFrameGenerator/StentFrameGenerator.cpp:106-111 | whenever the bootstrap divides by no zero length, the bootstrapped N, B and T are pairwise orthogonal, whatever sqrt returns and whatever the tangent's length |
| StentFrame.FirstFrameOrthonormal | StentFrameGenerator/StentFrameGenerator/StentFrameGenerator.cpp:106-111 | with an exact sqrt and a unit tangent, the bootstrapped T, N, B are unit length and pairwise orthogonal |
| StentFrame.FramesStartOrthonormal | StentFrameGenerator/StentFrameGenerator/StentFrameGenerator.cpp:105-111 | the first frame of any admissible centre line is orthonormal |
| StentFrame.Table | StentFrameGenerator/StentFrameGenerator/StentFrameGenerator.cpp:133-155 | a table of n entries has length n; entry i is f(i · 2 pi / n) |
| StentFrame.TablesOnUnitCircle | StentFrameGenerator/StentFrameGenerator/StentFrameGenerator.cpp:138-153 | the sine and cosine tables of one size are taken at the same angles, so entry i of the two lies on the unit circle |
| StentFrame.Ring | StentFrameGenerator/StentFrameGenerator/StentFrameGenerator.cpp:50-57 | a ring has count + 1 points and its last point equals its first |
| StentFrame.RingPoint | StentFrameGenerator/StentFrameGenerator/StentFrameGenerator.cpp:50-54 | helper for the proof of CreateStentLine: every ring point but the closing copy is O + N x + T y + B z of its local point |
| StentFrame.RingOfPoints | StentFrameGenerator/StentFrameGenerator/StentFrameGenerator.cpp:56 | helper for the proof of CreateStentLine: the world points followed by a copy of the first are the ring |
| StentFrame.OffsetPhase | StentFrameGenerator/StentFrameGenerator/StentFrameGenerator.cpp:32-42 | local point j sampleCnt + i lies in period j at phase i |
| StentFrame.PeriodRepeats | StentFrameGenerator/StentFrameGenerator/StentFrameGenerator.cpp:32-42 | local point j sampleCnt + i has y = yScale · sins[i] |
| StentFrame.LocalOnCircle | StentFrameGenerator/StentFrameGenerator/StentFrameGenerator.cpp:44-48 | every local point lies on the circle x² + z² = xzScale² |
| StentFrame.WorldToLocal | StentFrameGenerator/StentFrameGenerator/StentFrameGenerator.cpp:50-54 | in an orthonormal frame the world mapping can be undone: projecting onto N, T, B recovers the local point |
| StentFrame.StridedAt | StentFrameGenerator/StentFrameGenerator/StentFrameGenerator.cpp:77-81 | anchor k of the stride loop is bzpts[k gap] |
| StentFrame.StridedCount | StentFrameGenerator/StentFrameGenerator/StentFrameGenerator.cpp:77-81 | from a curve of m gap + 1 points the stride loop keeps m + 1 |
| StentFrame.FittedCurveGap | StentFrameGenerator/StentFrameGenerator/StentFrameGenerator.cpp:70-75 | the fitted curve is empty for N ≤ 2, and otherwise has 10 (N - 1) + 1 points with gap = N - 1 > 0 |
| StentFrame.ResampledCount | StentFrameGenerator/StentFrameGenerator/StentFrameGenerator.cpp:68-81 | spline mode yields no anchors for N ≤ 2 and exactly m_PartCnt + 1 = 11 otherwise, so the stride loop always ends |
| StentFrame.ResampledAt | StentFrameGenerator/StentFrameGenerator/StentFrameGenerator.cpp:77-81 | anchor k is curve point k (N - 1) |
| StentFrame.ResampledFirst | StentFrameGenerator/StentFrameGenerator/StentFrameGenerator.cpp:77-81 | the first anchor is the first input point |
| StentFrame.ResampledLast | StentFrameGenerator/StentFrameGenerator/StentFrameGenerator.cpp:77-81 | the last anchor is the last input point |
| StentFrame.Rings | StentFrameGenerator/StentFrameGenerator/StentFrameGenerator.cpp:86-90 | one ring per frame |
| StentFrame.DemoScenario | StentFrameGenerator/StentFrameGenerator/dllmain.cpp:49-56 | the example configuration (32, 12, spline fit, four points) gives 11 anchors and rings of 385 points closed on their first; when its anchors are transportable it yields 10 rings |
| StentFrame.Resize | StentFrameGenerator/StentFrameGenerator/StentFrameGenerator.cpp:135-136 | resize(n, 0) keeps the first n entries and pads with zeros |
| StentFrame.StentFrameGenerator.constructor | StentFrameGenerator/StentFrameGenerator/StentFrameGenerator.cpp:6-15 | stores the configuration with m_PartCnt = 10 and leaves the four tables filled |
| StentFrame.StentFrameGenerator.CacheSinsAndCoss | StentFrameGenerator/StentFrameGenerator/StentFrameGenerator.cpp:133-155 | the first tables hold sampleCnt entries and the second sampleCnt · periodCnt, entry i being sin and cos of i · 2 pi / size |
| StentFrame.StentFrameGenerator.FillSinsAndCoss | StentFrameGenerator/StentFrameGenerator/StentFrameGenerator.cpp:135-143 | one resize-and-fill loop produces the sine and cosine tables of its size |
| StentFrame.StentFrameGenerator.CreateStentLine | StentFrameGenerator/StentFrameGenerator/StentFrameGenerator.cpp:21-58 | the returned points are the ring of the frame: sampleCnt · periodCnt points in world space, closed by a copy of the first |
| StentFrame.StentFrameGenerator.UpdateTNBFrames | StentFrameGenerator/StentFrameGenerator/StentFrameGenerator.cpp:93-131 | m_Frames is replaced by the frames of pts, in segment order |
| StentFrame.StentFrameGenerator.CreateStentFrame | StentFrameGenerator/StentFrameGenerator/StentFrameGenerator.cpp:60-91 | empty input leaves the output and the frames alone; otherwise the frames are those of the anchors (spline-resampled or not) and the output is one ring per frame |
| StentFrame.StentFrameGenerator.CreateStentLines | StentFrameGenerator/StentFrameGenerator/StentFrameGenerator.cpp:86-90 | the cleared output is filled with one ring per frame, in frame order |
| StentFrame.FitAnchors | StentFrameGenerator/StentFrameGenerator/StentFrameGenerator.cpp:68-81 | spline-fitting with step 0.1 and keeping every gap-th point gives the resampled anchors |
| StentFrame.NextFrame | StentFrameGenerator/StentFrameGenerator/StentFrameGenerator.cpp:102-129 | given frames 0 … i - 1, the loop body builds frame i |
| StentFrame.BootstrapFrame | StentFrameGenerator/StentFrameGenerator/StentFrameGenerator.cpp:105-111 | the i = 0 body builds the bootstrapped frame at pts[0] |
| StentFrame.TransportFrame | StentFrameGenerator/StentFrameGenerator/StentFrameGenerator.cpp:112-128 | the i > 0 body copies or rotates N and B of the previous frame |
| StentFrame.LayOutPeriods | StentFrameGenerator/StentFrameGenerator/StentFrameGenerator.cpp:32-42 | periodCnt periods of sampleCnt points; point j sampleCnt + i has x = 4 j + 4 i / sampleCnt and y = yScale · sins[i] |
| StentFrame.WrapAround | StentFrameGenerator/StentFrameGenerator/StentFrameGenerator.cpp:44-48 | point k gets x = xzScale · sins2[k] and z = xzScale · coss2[k]; y is kept |
| StentFrame.MapToWorld | StentFrameGenerator/StentFrameGenerator/StentFrameGenerator.cpp:50-54 | point k becomes O + N x + T y + B z |
| StentFrame.Subsample | StentFrameGenerator/StentFrameGenerator/StentFrameGenerator.cpp:77-81 | the stride loop keeps bzpts[0], bzpts[gap], bzpts[2 gap], … |

## Left out

- Floating point: all arithmetic is over exact reals.
  - With `float` rounding, `t += 0.1` can give 10 or 11 samples per segment. The
    model gives exactly `SamplesPerSegment(step)` samples, which is 10 for step
    0.1.
  - Float rounding of every other computation is not modelled either.
- The values of `sinf`, `cosf`, `acos` and `sqrt` are not modelled. They are
  parameters of the model (the `Numerics` value), and only the facts stated as
  predicates are assumed of them, where a lemma requires them.
- Integer width: the counts `sampleCnt`, `periodCnt` and the point counts are
  `nat`.
  - `int` overflow of `sampleCnt * periodCnt` is not modelled.
  - Negative counts, which make `resize` fail in the source, are not modelled.
- StentFrame.StentFrameGenerator.UpdateTNBFrames: requires that no `normalize`
  divides by zero and that `GetRadianBetween`'s assertion holds (`Transportable`).
  Three inputs make the source divide by zero and produce NaNs:
  - coincident consecutive points;
  - a first tangent parallel to (0.5, -0.5, 0);
  - a U-turn, where two consecutive tangents are antiparallel, as in
    (0,0,0), (1,0,0), (0,0,0). The angle is then pi, so the code rotates,
    but `cross(prevT, T)` is zero and `normalize` at
    StentFrameGenerator.cpp:122 divides by zero.

  That behaviour is not modelled.
- StentFrame.StentFrameGenerator.CreateStentFrame: requires `Transportable` of the
  anchors, for the same reason.
- StentFrame.StentFrameGenerator.CreateStentFrame: requires positive `sampleCnt`
  and `periodCnt` when there is at least one frame. With either zero,
  `CreateStentLine` reads `pts[0]` of an empty vector, which is undefined
  behaviour.
- StentFrame.StentFrameGenerator.CreateStentLine: requires positive `sampleCnt`
  and `periodCnt`, for the same reason.
- BeizerSpline.BeizerSplineGenerator.CreateBeizeSpline: requires a positive step
  when there are more than two points. With a step ≤ 0 the `while (t < 1)` loop
  does not terminate.
- SiMath.DivAssign: requires a non-zero divisor. The source divides by zero into
  infinities or NaNs. It also takes `val` by value. In the source `val` is a
  `const float&`, so `v /= v.x` divides the later components by the updated
  `x`, which is 1: (2, 4, 6) becomes (1, 4, 6). That aliased call is modelled
  separately by `SiMath.DivAssignByComponent`.
- SiMath.Normalize and SiMath.GetRadianBetween: a zero length is excluded by a
  precondition.
- Orthonormality of rotated frames is not modelled. It would need the rotation
  matrix to be orthogonal, which rests on trigonometric identities of `sin` and
  `cos` beyond sin² + cos² = 1. Only the first frame is proved orthonormal. The
  model proves these facts about rotation:
  - the rotation axis is fixed;
  - the rotation is linear;
  - the copy rule for small turns.
- `operator<<` printers, the `cout` logging in `CreateStentFrame`, and the file
  output and `getchar` of `main` in dllmain.cpp are I/O. They are not modelled.
  Only the input of `main` is kept, as `DemoScenario`.
- Code that does not compile, or that is wrong as written, is not part of this
  model:
  - `Vector3::operator*=` refers to an undefined `refV3`;
  - the `Vector2` operators are missing semicolons;
  - the `Matrix3` nine-argument constructor;
  - the `Matrix3` and `Matrix4` in-place `*=`, which read entries they have
    already overwritten;
  - `scale(n, k)`, which has no return.
- Code the stent pipeline does not use is not part of this model:
  - `Vector2`;
  - `Matrix3`;
  - `Quaternion`;
  - the `Vector4` and `Matrix4` compound assignments;
  - the componentwise `Vector3 * Vector3` and `Vector3 / scalar`;
  - `GetPreciseAngle` and `Projection`;
  - `lookAt`, `perspective`, `viewport`;
  - `inverse`;
  - the casting operators.

  `Vector3::operator==` is Dafny's equality on the `Vector3` datatype.
- Aliasing of the `const vec3&` references in `CreateStentLine` and
  `UpdateTNBFrames`: the references only read values, so the model copies the
  values.
