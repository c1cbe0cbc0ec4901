/** BeizerSplineGenerator::CreateBeizeSpline: a piecewise cubic Bezier
    through the anchor points, flattened at a fixed parametric step. The
    parameter t is accumulated as in the source (t := t + step), over exact
    reals. */
module BeizerSpline {
  import opened SiMath

  // ------------------------------------------------------- tangent handles

  /** Half the distance between the midpoints on either side of anchor i,
      with the missing neighbour clamped to the anchor itself at both ends. */
  function HandleOffset(pts: seq<Vector3>, i: nat): Vector3
    requires i < |pts|
  {
    var prev := if i == 0 then pts[i] else pts[i - 1];
    var p := pts[i];
    var next := if i == |pts| - 1 then pts[i] else pts[i + 1];
    var midPrev := Scale(Add(prev, p), 0.5);
    var midNext := Scale(Add(next, p), 0.5);
    Scale(Sub(midNext, midPrev), 0.5)
  }

  /** The handle pair of anchor i: the anchor minus its offset, then the
      anchor plus its offset. */
  function HandlePairOf(pts: seq<Vector3>, i: nat): seq<Vector3>
    requires i < |pts|
  {
    [Sub(pts[i], HandleOffset(pts, i)), Add(pts[i], HandleOffset(pts, i))]
  }

  /** The handle buffer m_CachedMidpts after the first n anchors: their
      handle pairs in anchor order. */
  function HandlesUpTo(pts: seq<Vector3>, n: nat): (hs: seq<Vector3>)
    requires n <= |pts|
    ensures |hs| == 2 * n
  {
    if n == 0 then [] else HandlesUpTo(pts, n - 1) + HandlePairOf(pts, n - 1)
  }

  /** The full handle buffer: two handles per anchor. */
  function Handles(pts: seq<Vector3>): (hs: seq<Vector3>)
    ensures |hs| == 2 * |pts|
  {
    HandlesUpTo(pts, |pts|)
  }

  /** Anchor i contributes the handle pair at positions 2 i and 2 i + 1. */
  lemma {:induction false} HandlePairUpTo(pts: seq<Vector3>, n: nat, i: nat)
    requires i < n <= |pts|
    ensures HandlesUpTo(pts, n)[2 * i] == Sub(pts[i], HandleOffset(pts, i))
    ensures HandlesUpTo(pts, n)[2 * i + 1] == Add(pts[i], HandleOffset(pts, i))
    decreases n
  {
    if i < n - 1 {
      HandlePairUpTo(pts, n - 1, i);
    }
  }

  /** Anchor i contributes the handle pair before and after it. */
  lemma HandlePair(pts: seq<Vector3>, i: nat)
    requires i < |pts|
    ensures Handles(pts)[2 * i] == Sub(pts[i], HandleOffset(pts, i))
    ensures Handles(pts)[2 * i + 1] == Add(pts[i], HandleOffset(pts, i))
  {
    HandlePairUpTo(pts, |pts|, i);
  }

  /** The offset is a quarter of the vector from the previous to the next
      neighbour: (next - p) / 4 at the first anchor, (p - prev) / 4 at the
      last, and (next - prev) / 4 in between. */
  lemma HandleOffsetClamped(pts: seq<Vector3>, i: nat)
    requires 2 <= |pts| && i < |pts|
    ensures i == 0 ==> HandleOffset(pts, i) == Scale(Sub(pts[1], pts[0]), 0.25)
    ensures i == |pts| - 1 ==> HandleOffset(pts, i) == Scale(Sub(pts[i], pts[i - 1]), 0.25)
    ensures 0 < i < |pts| - 1 ==> HandleOffset(pts, i) == Scale(Sub(pts[i + 1], pts[i - 1]), 0.25)
  {
  }

  /** The two handles of an anchor average to the anchor, and the handle
      before an interior anchor, the anchor and the handle after it are
      equally spaced on one line (the joins are C1-continuous). */
  lemma HandlesAroundAnchor(pts: seq<Vector3>, i: nat)
    requires i < |pts|
    ensures Scale(Add(Handles(pts)[2 * i], Handles(pts)[2 * i + 1]), 0.5) == pts[i]
    ensures Sub(pts[i], Handles(pts)[2 * i]) == Sub(Handles(pts)[2 * i + 1], pts[i])
  {
    HandlePair(pts, i);
  }

  // ------------------------------------------------------ Bezier segments

  /** The four control points of one segment. */
  datatype Segment = Segment(p0: Vector3, p1: Vector3, p2: Vector3, p3: Vector3)

  /** Segment i joins anchor i to anchor i + 1 through handles 2i + 1 and 2(i + 1). */
  function SegmentOf(pts: seq<Vector3>, i: nat): Segment
    requires i + 1 < |pts|
  {
    Segment(pts[i], Add(pts[i], HandleOffset(pts, i)), Sub(pts[i + 1], HandleOffset(pts, i + 1)), pts[i + 1])
  }

  /** The cubic Bernstein weights c0..c3 at t. */
  function Weights(t: real): (real, real, real, real) {
    ((1.0 - t) * (1.0 - t) * (1.0 - t),
     3.0 * (1.0 - t) * (1.0 - t) * t,
     3.0 * (1.0 - t) * t * t,
     t * t * t)
  }

  /** p0 * c0 + p1 * c1 + p2 * c2 + p3 * c3 */
  function BezierPoint(s: Segment, t: real): Vector3 {
    var (c0, c1, c2, c3) := Weights(t);
    Add(Add(Add(Scale(s.p0, c0), Scale(s.p1, c1)), Scale(s.p2, c2)), Scale(s.p3, c3))
  }

  /** The weights are a partition of unity. */
  lemma WeightsSumToOne(t: real)
    ensures Weights(t).0 + Weights(t).1 + Weights(t).2 + Weights(t).3 == 1.0
  {
    var u := 1.0 - t;
    calc {
      Weights(t).0 + Weights(t).1 + Weights(t).2 + Weights(t).3;
      u * u * u + 3.0 * u * u * t + 3.0 * u * t * t + t * t * t;
      (u + t) * (u + t) * (u + t);
    }
  }

  /** One coordinate of BezierPoint: the blend of four numbers. */
  function Bernstein(a: real, b: real, c: real, d: real, t: real): real {
    var (c0, c1, c2, c3) := Weights(t);
    a * c0 + b * c1 + c * c2 + d * c3
  }

  lemma BezierComponents(s: Segment, t: real)
    ensures BezierPoint(s, t) == Vector3(Bernstein(s.p0.x, s.p1.x, s.p2.x, s.p3.x, t),
                                         Bernstein(s.p0.y, s.p1.y, s.p2.y, s.p3.y, t),
                                         Bernstein(s.p0.z, s.p1.z, s.p2.z, s.p3.z, t))
  {
  }

  lemma BernsteinEnds(a: real, b: real, c: real, d: real)
    ensures Bernstein(a, b, c, d, 0.0) == a
    ensures Bernstein(a, b, c, d, 1.0) == d
  {
    assert Weights(0.0) == (1.0, 0.0, 0.0, 0.0);
    assert Weights(1.0) == (0.0, 0.0, 0.0, 1.0);
  }

  lemma BernsteinConstant(a: real, t: real)
    ensures Bernstein(a, a, a, a, t) == a
  {
    WeightsSumToOne(t);
    var (c0, c1, c2, c3) := Weights(t);
    Distribute(a, c0, c1, c2, c3);
  }

  lemma Distribute(a: real, c0: real, c1: real, c2: real, c3: real)
    ensures a * c0 + a * c1 + a * c2 + a * c3 == a * (c0 + c1 + c2 + c3)
  {
  }

  /** A segment starts at its first control point and ends at its last. */
  lemma BezierEnds(s: Segment)
    ensures BezierPoint(s, 0.0) == s.p0
    ensures BezierPoint(s, 1.0) == s.p3
  {
    BezierComponents(s, 0.0);
    BezierComponents(s, 1.0);
    BernsteinEnds(s.p0.x, s.p1.x, s.p2.x, s.p3.x);
    BernsteinEnds(s.p0.y, s.p1.y, s.p2.y, s.p3.y);
    BernsteinEnds(s.p0.z, s.p1.z, s.p2.z, s.p3.z);
  }

  /** A segment whose four control points coincide is that point for every t. */
  lemma BezierConstant(s: Segment, t: real)
    requires s.p0 == s.p1 == s.p2 == s.p3
    ensures BezierPoint(s, t) == s.p0
  {
    BezierComponents(s, t);
    BernsteinConstant(s.p0.x, t);
    BernsteinConstant(s.p0.y, t);
    BernsteinConstant(s.p0.z, t);
  }

  // ------------------------------------------------------------- sampling

  /** The value of t after k executions of t += step, starting from 0. */
  function Param(step: real, k: nat): real {
    if k == 0 then 0.0 else Param(step, k - 1) + step
  }

  lemma {:induction false} ParamMonotone(step: real, i: nat, j: nat)
    requires 0.0 < step
    ensures i <= j ==> Param(step, i) <= Param(step, j)
    ensures i < j ==> Param(step, i) < Param(step, j)
    decreases j
  {
    if i < j {
      ParamMonotone(step, i, j - 1);
    }
  }

  /** Over exact reals the accumulated parameter is k * step. */
  lemma {:induction false} ParamIsProduct(step: real, k: nat)
    ensures Param(step, k) == k as real * step
  {
    if k > 0 {
      ParamIsProduct(step, k - 1);
      Subst(k as real, (k - 1) as real + 1.0, step);
      MulAdd((k - 1) as real, step);
    }
  }

  /** A number of steps after which t has reached 1. */
  function Budget(step: real): (b: nat)
    requires 0.0 < step
    ensures 1.0 <= Param(step, b)
  {
    var q := (1.0 / step).Floor;
    FloorBound(step, 1.0 / step, q as real);
    ParamIsProduct(step, q + 1);
    Subst((q + 1) as real, q as real + 1.0, step);
    MulAdd(q as real, step);
    q + 1
  }

  lemma FloorBound(step: real, r: real, qr: real)
    requires 0.0 < step && r == 1.0 / step
    requires qr <= r < qr + 1.0
    ensures qr * step <= 1.0 < qr * step + step
  {
    InverseMul(step, r);
    MulPositive(qr, r, step);
    MulPositive(r, qr + 1.0, step);
    MulAdd(qr, step);
  }

  lemma InverseMul(step: real, r: real)
    requires 0.0 < step && r == 1.0 / step
    ensures r * step == 1.0
  {
  }

  lemma MulAdd(a: real, s: real)
    ensures (a + 1.0) * s == a * s + s
  {
  }

  lemma Subst(a: real, b: real, s: real)
    requires a == b
    ensures a * s == b * s
  {
  }

  lemma MulPositive(a: real, b: real, s: real)
    requires 0.0 < s
    ensures a <= b ==> a * s <= b * s
    ensures a < b ==> a * s < b * s
  {
  }

  /** The iteration at which `while (t < 1)` stops, when it is at iteration k. */
  function StepsFrom(step: real, k: nat): (n: nat)
    requires 0.0 < step
    ensures k <= n && 1.0 <= Param(step, n)
    ensures forall j :: k <= j < n ==> Param(step, j) < 1.0
    decreases Budget(step) - k
  {
    if 1.0 <= Param(step, k) then k
    else
      ParamMonotone(step, Budget(step), k);
      StepsFrom(step, k + 1)
  }

  /** How many samples the loop takes per segment: the least n whose
      accumulated parameter reaches 1. */
  function SamplesPerSegment(step: real): (n: nat)
    requires 0.0 < step
    ensures 1 <= n
    ensures Param(step, n - 1) < 1.0 <= Param(step, n)
  {
    StepsFrom(step, 0)
  }

  /** With the step 0.1 that the stent generator uses, each segment gives ten samples. */
  lemma SamplesAtTenth()
    ensures SamplesPerSegment(0.1) == 10
  {
    var n := SamplesPerSegment(0.1);
    assert Param(0.1, 10) == 1.0;
    assert Param(0.1, 9) < 1.0;
    ParamMonotone(0.1, n, 9);
    ParamMonotone(0.1, 10, n - 1);
  }

  /** The index where the samples of segment i begin, for n samples per
      segment: i * n, as repeated addition. */
  function Offset(i: nat, n: nat): nat {
    if i == 0 then 0 else Offset(i - 1, n) + n
  }

  lemma {:induction false} OffsetIsProduct(i: nat, n: nat)
    ensures Offset(i, n) == i * n
  {
    if i > 0 {
      OffsetIsProduct(i - 1, n);
      assert (i - 1) * n + n == i * n;
    }
  }

  lemma {:induction false} OffsetMonotone(i: nat, j: nat, n: nat)
    ensures i <= j ==> Offset(i, n) <= Offset(j, n)
  {
    if i < j {
      OffsetMonotone(i, j - 1, n);
    }
  }

  /** The points of one segment at the parameters t = 0, step, 2 step, ...
      that lie below 1. */
  function CurveSamples(seg: Segment, step: real): (samples: seq<Vector3>)
    requires 0.0 < step
    ensures |samples| == SamplesPerSegment(step)
  {
    seq(SamplesPerSegment(step), k requires 0 <= k => BezierPoint(seg, Param(step, k)))
  }

  /** The samples of segment i. */
  function SegmentSamples(pts: seq<Vector3>, step: real, i: nat): (samples: seq<Vector3>)
    requires 0.0 < step && i + 1 < |pts|
    ensures |samples| == SamplesPerSegment(step)
  {
    CurveSamples(SegmentOf(pts, i), step)
  }

  /** The per-segment sample blocks, in segment order. */
  function Blocks(pts: seq<Vector3>, step: real): (blocks: seq<seq<Vector3>>)
    requires 0.0 < step && 1 <= |pts|
    ensures |blocks| == |pts| - 1
  {
    seq(|pts| - 1, i requires 0 <= i < |pts| - 1 => SegmentSamples(pts, step, i))
  }

  /** The blocks laid end to end. */
  function Concat(blocks: seq<seq<Vector3>>): seq<Vector3> {
    if |blocks| == 0 then [] else Concat(blocks[..|blocks| - 1]) + blocks[|blocks| - 1]
  }

  predicate Uniform(blocks: seq<seq<Vector3>>, n: nat) {
    forall b :: b in blocks ==> |b| == n
  }

  /** Block i of blocks of n points each occupies indices Offset(i, n) up
      to Offset(i + 1, n) of the concatenation. */
  lemma {:induction false} ConcatLayout(blocks: seq<seq<Vector3>>, n: nat, i: nat)
    requires Uniform(blocks, n)
    ensures |Concat(blocks)| == Offset(|blocks|, n)
    ensures i < |blocks| ==> Offset(i + 1, n) <= |Concat(blocks)|
    ensures i < |blocks| ==> Concat(blocks)[Offset(i, n)..Offset(i + 1, n)] == blocks[i]
    decreases |blocks|
  {
    if |blocks| > 0 {
      var init := blocks[..|blocks| - 1];
      assert Uniform(init, n) by {
        forall b | b in init ensures |b| == n {
          assert b in blocks;
        }
      }
      assert blocks[|blocks| - 1] in blocks;
      ConcatLayout(init, n, i);
      OffsetMonotone(i + 1, |blocks| - 1, n);
      if i < |blocks| - 1 {
        assert Concat(blocks)[..|Concat(init)|] == Concat(init);
        assert init[i] == blocks[i];
      }
    }
  }

  /** The whole resampled curve: every segment's samples, then the last anchor. */
  function Spline(pts: seq<Vector3>, step: real): seq<Vector3>
    requires 0.0 < step && 1 <= |pts|
  {
    Concat(Blocks(pts, step)) + [pts[|pts| - 1]]
  }

  /** The resampled curve has (N - 1) * n + 1 points for N anchors and n
      samples per segment, and it ends exactly at the last anchor. */
  lemma SplineLength(pts: seq<Vector3>, step: real)
    requires 0.0 < step && 1 <= |pts|
    ensures |Spline(pts, step)| == (|pts| - 1) * SamplesPerSegment(step) + 1
    ensures Spline(pts, step)[|Spline(pts, step)| - 1] == pts[|pts| - 1]
  {
    var n := SamplesPerSegment(step);
    assert Uniform(Blocks(pts, step), n);
    ConcatLayout(Blocks(pts, step), n, 0);
    OffsetIsProduct(|pts| - 1, n);
  }

  /** The points of segment i sit at indices Offset(i, n) = i * n up to
      Offset(i + 1, n) of the resampled curve and are the Bernstein blends
      of segment i at the parameters the loop visits; the first of them is
      anchor i itself. */
  lemma SplineSegment(pts: seq<Vector3>, step: real, i: nat)
    requires 0.0 < step && i + 1 < |pts|
    ensures Offset(i + 1, SamplesPerSegment(step)) < |Spline(pts, step)|
    ensures Spline(pts, step)[Offset(i, SamplesPerSegment(step))..Offset(i + 1, SamplesPerSegment(step))]
         == SegmentSamples(pts, step, i)
    ensures Spline(pts, step)[Offset(i, SamplesPerSegment(step))] == pts[i]
  {
    var n := SamplesPerSegment(step);
    var blocks := Blocks(pts, step);
    var body := Concat(blocks);
    assert Uniform(blocks, n);
    ConcatLayout(blocks, n, i);
    assert Spline(pts, step)[..|body|] == body;
    SegmentStartsAtAnchor(pts, step, i);
  }

  /** The first sample of every segment is its start anchor. */
  lemma SegmentStartsAtAnchor(pts: seq<Vector3>, step: real, i: nat)
    requires 0.0 < step && i + 1 < |pts|
    ensures SegmentSamples(pts, step, i)[0] == pts[i]
  {
    BezierEnds(SegmentOf(pts, i));
  }

  // ------------------------------------------------------------ generator

  class BeizerSplineGenerator {
    /** m_CachedMidpts: the handle buffer, rebuilt by every call with more than two anchors. */
    var cachedMidpts: seq<Vector3>
    /** m_Step */
    const step: real

    constructor (step: real)
      ensures this.step == step && cachedMidpts == []
    {
      this.step := step;
      cachedMidpts := [];
    }

    /** The first loop of CreateBeizeSpline: two handles per anchor, pushed
        onto the (cleared) handle buffer. */
    method CacheHandles(pts: seq<Vector3>)
      modifies this
      ensures cachedMidpts == Handles(pts)
    {
      cachedMidpts := [];
      var ptCnt := |pts|;
      var i := 0;
      while i < ptCnt
        invariant 0 <= i <= ptCnt
        invariant cachedMidpts == HandlesUpTo(pts, i)
      {
        var prev := if i == 0 then pts[i] else pts[i - 1];
        var p := pts[i];
        var next := if i == ptCnt - 1 then pts[i] else pts[i + 1];
        var midPrev := Scale(Add(prev, p), 0.5);
        var midNext := Scale(Add(next, p), 0.5);
        var offset := Scale(Sub(midNext, midPrev), 0.5);
        assert offset == HandleOffset(pts, i);
        cachedMidpts := cachedMidpts + [Sub(p, offset), Add(p, offset)];
        i := i + 1;
      }
    }

    /** With two or fewer anchors the call returns at once and leaves oPts
        (and the handle buffer) as they were. Otherwise the handle buffer is
        rebuilt and oPts is replaced by the resampled curve. The loop over t
        terminates only for a positive step. */
    method CreateBeizeSpline(pts: seq<Vector3>, oPts: seq<Vector3>) returns (res: seq<Vector3>)
      requires |pts| > 2 ==> 0.0 < step
      modifies this
      ensures |pts| <= 2 ==> res == oPts && cachedMidpts == old(cachedMidpts)
      ensures |pts| > 2 ==> cachedMidpts == Handles(pts) && res == Spline(pts, step)
    {
      if |pts| <= 2 {
        return oPts;
      }
      CacheHandles(pts);
      res := SampleSegments(pts, cachedMidpts, step);
      res := res + [pts[|pts| - 1]];
    }
  }

  /** The second loop of CreateBeizeSpline: segment i runs from anchor i
      through handles 2 i + 1 and 2 i + 2 to anchor i + 1, and its samples
      are appended in segment order. */
  method SampleSegments(pts: seq<Vector3>, midpts: seq<Vector3>, step: real) returns (res: seq<Vector3>)
    requires 0.0 < step && 1 <= |pts| && midpts == Handles(pts)
    ensures res == Concat(Blocks(pts, step))
  {
    res := [];
    var ptCnt := |pts|;
    var i := 0;
    while i < ptCnt - 1
      invariant 0 <= i <= ptCnt - 1
      invariant res == Concat(Blocks(pts, step)[..i])
    {
      var p0 := pts[i];
      var p1 := midpts[2 * i + 1];
      var p2 := midpts[2 * (i + 1) + 0];
      var p3 := pts[i + 1];
      HandlePair(pts, i);
      HandlePair(pts, i + 1);
      var seg := Segment(p0, p1, p2, p3);
      assert seg == SegmentOf(pts, i);
      var samples := SampleSegment(seg, step);
      res := res + samples;
      assert Blocks(pts, step)[..i + 1][..i] == Blocks(pts, step)[..i];
      i := i + 1;
    }
    assert Blocks(pts, step)[..ptCnt - 1] == Blocks(pts, step);
  }

  /** The inner loop of CreateBeizeSpline: t runs from 0 by step while it is
      below 1, and each point of the segment at t is appended. */
  method SampleSegment(seg: Segment, step: real) returns (samples: seq<Vector3>)
    requires 0.0 < step
    ensures samples == CurveSamples(seg, step)
  {
    var n := SamplesPerSegment(step);
    samples := [];
    var t := 0.0;
    ghost var k: nat := 0;
    while t < 1.0
      invariant k <= n
      invariant t == Param(step, k)
      invariant samples == CurveSamples(seg, step)[..k]
      decreases n - k
    {
      ParamMonotone(step, n, k);
      var px := BezierPoint(seg, t);
      samples := samples + [px];
      t := t + step;
      k := k + 1;
    }
    ParamMonotone(step, k, n - 1);
    assert CurveSamples(seg, step)[..k] == CurveSamples(seg, step);
  }
}
