/**
 * galaxy.cpp: Galaxy::generate_galaxy and its spiral-arm transform. The point
 * cloud is n/4 core points, n/4 outer-core points, then n/4 points per arm;
 * each point reads three Gaussian samples, so six rand() draws. gaus_rand
 * is passed in as a sampler (Random.GausSampler(m, rng) in the program), so
 * the draws a point reads are named by their position in the stream.
 */
module Galaxy {
  import opened Wrappers
  import opened RealMath
  import opened Glm
  import opened Random

  const CORE_X_DIST: real := 33.0
  const CORE_Z_DIST: real := 33.0
  const OUTER_CORE_X_DIST: real := 100.0
  const OUTER_CORE_Z_DIST: real := 100.0
  const GALAXY_THICKNESS: real := 5.0
  const ARM_X_DIST: real := 100.0
  const ARM_Z_DIST: real := 50.0
  const ARM_X_MEAN: real := 200.0
  const ARM_Z_MEAN: real := 100.0
  /** The winding factor `spiral`. */
  const SPIRAL: nat := 3
  const ARMS: nat := 2

  /** The value of a float division: finite, an infinity, or NaN. */
  datatype Quotient = Finite(value: real) | PosInfinity | NegInfinity | NotANumber

  /**
   * n / d in IEEE arithmetic, for finite n and a zero denominator that is +0
   * (a sum such as z * stddev + mean that cancels to zero is +0).
   */
  function IeeeDivide(n: real, d: real): (q: Quotient)
    ensures q.NotANumber? <==> n == 0.0 && d == 0.0
    ensures q.Finite? <==> d != 0.0
    ensures q.PosInfinity? <==> d == 0.0 && n > 0.0
    ensures q.NegInfinity? <==> d == 0.0 && n < 0.0
  {
    if d != 0.0 then Finite(n / d)
    else if n > 0.0 then PosInfinity
    else if n < 0.0 then NegInfinity
    else NotANumber
  }

  /** A finite quotient is exact: multiplying back by the denominator gives the numerator. */
  lemma IeeeDivideExact(n: real, d: real)
    requires d != 0.0
    ensures IeeeDivide(n, d) == Finite(n / d) && (n / d) * d == n
  {
  }

  /** std::atan of a quotient; None is NaN. */
  function AtanOf(m: Math, q: Quotient): Option<real> {
    match q
    case Finite(v) => Some(m.atan(v))
    case PosInfinity => Some(ATAN_OF_INFINITY)
    case NegInfinity => Some(-ATAN_OF_INFINITY)
    case NotANumber => None
  }

  /**
   * The angle spiral_point computes for the seed p, as written: the offset,
   * plus atan(p.z / p.x) (multiplied by PI when p.x <= 0), plus the winding
   * term (r / arm_x_dist) * spiral. None is a NaN angle: it arises exactly
   * for a seed on the y axis, where atan reads 0 / 0.
   */
  function SpiralAngleAsWritten(m: Math, p: Vec3, offset: real): (theta: Option<real>)
    ensures theta.None? <==> p.x == 0.0 && p.z == 0.0
  {
    var r := m.sqrt(p.x * p.x + p.z * p.z);
    match AtanOf(m, IeeeDivide(p.z, p.x))
    case None => None
    case Some(a) => Some(offset + (if p.x > 0.0 then a else a * PI) + (r / ARM_X_DIST) * SPIRAL as real)
  }

  /**
   * The spiral angle with the 0 / 0 case given the arctangent term 0 (the
   * distance r is 0 there, so the point lands on the axis whatever the angle).
   */
  function SpiralAngle(m: Math, p: Vec3, offset: real): (theta: real)
    ensures p.x == 0.0 && p.z == 0.0 ==> theta == offset + (m.sqrt(0.0) / ARM_X_DIST) * SPIRAL as real
  {
    var r := m.sqrt(p.x * p.x + p.z * p.z);
    var a := if p.x != 0.0 then m.atan(p.z / p.x)
             else if p.z > 0.0 then ATAN_OF_INFINITY
             else if p.z < 0.0 then -ATAN_OF_INFINITY
             else 0.0;
    offset + (if p.x > 0.0 then a else a * PI) + (r / ARM_X_DIST) * SPIRAL as real
  }

  /** Off the y axis the corrected angle is the one the source computes. */
  lemma SpiralAngleAgrees(m: Math, p: Vec3, offset: real)
    ensures SpiralAngleAsWritten(m, p, offset).Some? ==> SpiralAngle(m, p, offset) == SpiralAngleAsWritten(m, p, offset).value
  {
    match AtanOf(m, IeeeDivide(p.z, p.x))
    case None =>
    case Some(a) =>
  }

  /** A seed on the y axis makes the source's spiral angle NaN, whatever the arm offset. */
  lemma AxisSeedHasNaNAngle(m: Math, y: real, offset: real)
    ensures SpiralAngleAsWritten(m, Vec3(0.0, y, 0.0), offset) == None
  {
  }

  /**
   * spiral_point(p, offset): rotates the seed's horizontal offset to the
   * spiral angle, keeping its distance r from the y axis and its height,
   * and tags the point w = 1.
   */
  function SpiralPoint(m: Math, p: Vec3, offset: real): (q: Vec4)
    ensures q.y == p.y && q.w == 1.0
  {
    var r := m.sqrt(p.x * p.x + p.z * p.z);
    var theta := SpiralAngle(m, p, offset);
    Vec4(r * m.cos(theta), p.y, r * m.sin(theta), 1.0)
  }

  /**
   * spiral_point as written: None is the point (NaN, y, NaN, 1) a seed on
   * the y axis yields.
   */
  function SpiralPointAsWritten(m: Math, p: Vec3, offset: real): (q: Option<Vec4>)
    ensures q.None? <==> p.x == 0.0 && p.z == 0.0
  {
    var r := m.sqrt(p.x * p.x + p.z * p.z);
    match SpiralAngleAsWritten(m, p, offset)
    case None => None
    case Some(theta) => Some(Vec4(r * m.cos(theta), p.y, r * m.sin(theta), 1.0))
  }

  /** Off the y axis the source's point is the one the cloud is built from. */
  lemma SpiralPointAgrees(m: Math, p: Vec3, offset: real)
    ensures SpiralPointAsWritten(m, p, offset).Some? ==> SpiralPointAsWritten(m, p, offset).value == SpiralPoint(m, p, offset)
  {
    SpiralAngleAgrees(m, p, offset);
  }

  /** Given sqrt and cos² + sin² = 1, the spiral transform keeps x² + z². */
  lemma SpiralPointKeepsRadius(m: Math, p: Vec3, offset: real)
    requires SqrtLaw(m) && PythagoreanLaw(m)
    ensures var q := SpiralPoint(m, p, offset); q.x * q.x + q.z * q.z == p.x * p.x + p.z * p.z
  {
    var r := m.sqrt(p.x * p.x + p.z * p.z);
    var theta := SpiralAngle(m, p, offset);
    var c, s := m.cos(theta), m.sin(theta);
    assert r * r == p.x * p.x + p.z * p.z;
    assert c * c + s * s == 1.0;
    calc {
      (r * c) * (r * c) + (r * s) * (r * s);
      (r * r) * (c * c + s * s);
      r * r;
    }
  }

  /** The phase offset of arm i: i * 2 * PI / arms. */
  function ArmOffset(i: nat): (offset: real)
    ensures 0.0 <= offset
    ensures offset == 0.0 <==> i == 0
    ensures i < ARMS ==> offset < 2.0 * PI
  {
    i as real * 2.0 * PI / ARMS as real
  }

  /** How many points generate_galaxy(n) returns: never more than n, and n exactly when 4 divides n. */
  function GalaxySize(n: nat): (s: nat)
    ensures s <= n
    ensures s == n <==> n % 4 == 0
  {
    n / 4 + n / 4 + ARMS * (n / 4)
  }

  /**
   * A point of the core or of the outer core, read from the draws at d .. d + 5:
   * centred Gaussian samples with spreads xDist, galaxy_thickness and zDist, tagged w = 0.
   */
  function CorePoint(gaus: Sampler, d: nat, xDist: real, zDist: real): Vec4 {
    Vec4(gaus(d, 0.0, xDist), gaus(d + 2, 0.0, GALAXY_THICKNESS), gaus(d + 4, 0.0, zDist), 0.0)
  }

  /** The Gaussian seed of an arm point, read from the draws at d .. d + 5. */
  function ArmSeed(gaus: Sampler, d: nat): Vec3 {
    Vec3(gaus(d, ARM_X_MEAN, ARM_X_DIST), gaus(d + 2, 0.0, GALAXY_THICKNESS), gaus(d + 4, ARM_Z_MEAN, ARM_Z_DIST))
  }

  /** Where arm i's points start when each phase emits q points: after both cores and the i earlier arms. */
  function ArmStart(i: nat, q: nat): nat
    decreases i
  {
    if i == 0 then 2 * q else ArmStart(i - 1, q) + q
  }

  /** The arms end where the cloud ends, at (2 + arms) q. */
  lemma ArmStartBounds(i: nat, q: nat)
    requires i <= ARMS
    ensures 2 * q <= ArmStart(i, q)
    ensures i < ARMS ==> ArmStart(i, q) + q <= (2 + ARMS) * q
    ensures i == ARMS ==> ArmStart(i, q) == (2 + ARMS) * q
  {
    if i == 1 {
      assert ArmStart(1, q) == 3 * q;
    } else if i == 2 {
      assert ArmStart(1, q) == 3 * q;
      assert ArmStart(2, q) == 4 * q;
    }
  }

  /** Which arm the point at index k >= 2q belongs to, when each phase emits q points. */
  function ArmIndex(k: nat, q: nat): nat
    decreases k
  {
    if q == 0 || k < 3 * q then 0 else 1 + ArmIndex(k - q, q)
  }

  /** Arm i's j-th point is the point at index ArmStart(i, q) + j. */
  lemma {:induction false} ArmIndexOfBlock(i: nat, j: nat, q: nat)
    requires j < q
    ensures 2 * q <= ArmStart(i, q) && ArmIndex(ArmStart(i, q) + j, q) == i
  {
    if i > 0 {
      ArmIndexOfBlock(i - 1, j, q);
    }
  }

  /**
   * The k-th point of the cloud when each phase emits q points, built from
   * the six draws at d .. d + 5: core points come first, then outer-core
   * points (both w = 0), then the arms in order (w = 1).
   */
  function GalaxyPoint(m: Math, gaus: Sampler, d: nat, q: nat, k: nat): (p: Vec4)
    ensures p.w == (if k < 2 * q then 0.0 else 1.0)
  {
    if k < q then CorePoint(gaus, d, CORE_X_DIST, CORE_Z_DIST)
    else if k < 2 * q then CorePoint(gaus, d, OUTER_CORE_X_DIST, OUTER_CORE_Z_DIST)
    else SpiralPoint(m, ArmSeed(gaus, d), ArmOffset(ArmIndex(k, q)))
  }

  /**
   * What generate_galaxy(n_points, radius) returns when its draws start at
   * `start`: point k is GalaxyPoint k, read from the draws at start + 6k on.
   */
  function GalaxyPoints(m: Math, gaus: Sampler, start: nat, nPoints: nat): (points: seq<Vec4>)
    ensures |points| == GalaxySize(nPoints)
  {
    seq(GalaxySize(nPoints), k requires 0 <= k => GalaxyPoint(m, gaus, start + 6 * k, nPoints / 4, k))
  }

  /** points are the first |points| points of the cloud whose draws start at `start`. */
  ghost predicate IsCloudPrefix(m: Math, gaus: Sampler, start: nat, q: nat, points: seq<Vec4>) {
    forall k :: 0 <= k < |points| ==> points[k] == GalaxyPoint(m, gaus, start + 6 * k, q, k)
  }

  /** Appending the cloud's next point keeps a prefix a prefix. */
  lemma PrefixStep(m: Math, gaus: Sampler, start: nat, q: nat, points: seq<Vec4>, p: Vec4)
    requires IsCloudPrefix(m, gaus, start, q, points)
    requires p == GalaxyPoint(m, gaus, start + 6 * |points|, q, |points|)
    ensures IsCloudPrefix(m, gaus, start, q, points + [p])
  {
  }

  /** The point an arm loop computes at index k = ArmStart(i, q) + j is the cloud's point k. */
  lemma ArmPointIs(m: Math, gaus: Sampler, d: nat, q: nat, i: nat, j: nat, k: nat)
    requires j < q && k == ArmStart(i, q) + j
    ensures GalaxyPoint(m, gaus, d, q, k) == SpiralPoint(m, ArmSeed(gaus, d), ArmOffset(i))
  {
    ArmIndexOfBlock(i, j, q);
  }

  /** A point reads the sampler only at d, d + 2 and d + 4. */
  lemma GalaxyPointReadsThreeSamples(m: Math, g: Sampler, g': Sampler, d: nat, q: nat, k: nat)
    requires forall e, mean, stddev :: d <= e <= d + 4 ==> g(e, mean, stddev) == g'(e, mean, stddev)
    ensures GalaxyPoint(m, g, d, q, k) == GalaxyPoint(m, g', d, q, k)
  {
    assert ArmSeed(g, d) == ArmSeed(g', d);
  }

  /** Samplers that agree below start + 6 * GalaxySize(n) - 1. */
  ghost predicate SamplersAgree(g: Sampler, g': Sampler, start: nat, nPoints: nat) {
    forall e, mean, stddev :: start <= e < start + 6 * GalaxySize(nPoints) - 1 ==> g(e, mean, stddev) == g'(e, mean, stddev)
  }

  lemma GalaxyPointsAgreeAt(m: Math, g: Sampler, g': Sampler, start: nat, nPoints: nat, k: nat)
    requires SamplersAgree(g, g', start, nPoints) && k < GalaxySize(nPoints)
    ensures GalaxyPoints(m, g, start, nPoints)[k] == GalaxyPoints(m, g', start, nPoints)[k]
  {
    GalaxyPointReadsThreeSamples(m, g, g', start + 6 * k, nPoints / 4, k);
  }

  /** The cloud reads the sampler only below start + 6 * GalaxySize(n) - 1. */
  lemma GalaxyPointsReadTheirSamples(m: Math, g: Sampler, g': Sampler, start: nat, nPoints: nat)
    requires SamplersAgree(g, g', start, nPoints)
    ensures GalaxyPoints(m, g, start, nPoints) == GalaxyPoints(m, g', start, nPoints)
  {
    forall k | 0 <= k < GalaxySize(nPoints)
      ensures GalaxyPoints(m, g, start, nPoints)[k] == GalaxyPoints(m, g', start, nPoints)[k]
    {
      GalaxyPointsAgreeAt(m, g, g', start, nPoints, k);
    }
  }

  /** With gaus_rand as the sampler, the cloud reads exactly the 6 * GalaxySize(n) draws from `start` on. */
  lemma GalaxyPointsReadTheirDraws(m: Math, rng: Stream, rng': Stream, start: nat, nPoints: nat)
    requires forall e :: start <= e < start + 6 * GalaxySize(nPoints) ==> rng(e) == rng'(e)
    ensures GalaxyPoints(m, GausSampler(m, rng), start, nPoints) == GalaxyPoints(m, GausSampler(m, rng'), start, nPoints)
  {
    GausSamplersAgree(m, rng, rng', start, start + 6 * GalaxySize(nPoints));
    GalaxyPointsReadTheirSamples(m, GausSampler(m, rng), GausSampler(m, rng'), start, nPoints);
  }

  /** generate_galaxy's first loop: q core points, reading the draws from `start` on. */
  method PushCorePoints(m: Math, gaus: Sampler, start: nat, q: nat) returns (points: seq<Vec4>, next: nat)
    ensures |points| == q && IsCloudPrefix(m, gaus, start, q, points)
    ensures next == start + 6 * q
  {
    points, next := [], start;
    for i := 0 to q
      invariant |points| == i && IsCloudPrefix(m, gaus, start, q, points)
      invariant next == start + 6 * i
    {
      var x := gaus(next, 0.0, CORE_X_DIST);
      var y := gaus(next + 2, 0.0, GALAXY_THICKNESS);
      var z := gaus(next + 4, 0.0, CORE_Z_DIST);
      points := points + [Vec4(x, y, z, 0.0)];
      next := next + 6;
    }
  }

  /** generate_galaxy's second loop: q outer-core points after the q core points. */
  method PushOuterCorePoints(m: Math, gaus: Sampler, start: nat, q: nat, core: seq<Vec4>, from: nat)
    returns (points: seq<Vec4>, next: nat)
    requires |core| == q && IsCloudPrefix(m, gaus, start, q, core) && from == start + 6 * q
    ensures |points| == 2 * q && IsCloudPrefix(m, gaus, start, q, points)
    ensures next == start + 6 * (2 * q)
  {
    points, next := core, from;
    for i := q to 2 * q
      invariant |points| == i && IsCloudPrefix(m, gaus, start, q, points)
      invariant next == start + 6 * i
    {
      var x := gaus(next, 0.0, OUTER_CORE_X_DIST);
      var y := gaus(next + 2, 0.0, GALAXY_THICKNESS);
      var z := gaus(next + 4, 0.0, OUTER_CORE_Z_DIST);
      points := points + [Vec4(x, y, z, 0.0)];
      next := next + 6;
    }
  }

  /** One pass of generate_galaxy's inner arm loop: the q points of arm i. */
  method PushArm(m: Math, gaus: Sampler, start: nat, q: nat, i: nat, before: seq<Vec4>, from: nat)
    returns (points: seq<Vec4>, next: nat)
    requires |before| == ArmStart(i, q) && IsCloudPrefix(m, gaus, start, q, before) && from == start + 6 * |before|
    ensures |points| == ArmStart(i, q) + q && IsCloudPrefix(m, gaus, start, q, points)
    ensures next == start + 6 * |points|
  {
    points, next := before, from;
    for j := 0 to q
      invariant |points| == ArmStart(i, q) + j && IsCloudPrefix(m, gaus, start, q, points)
      invariant next == start + 6 * |points|
    {
      var p := SpiralPoint(m, ArmSeed(gaus, next), ArmOffset(i));
      ArmPointIs(m, gaus, next, q, i, j, |points|);
      PrefixStep(m, gaus, start, q, points, p);
      points := points + [p];
      next := next + 6;
    }
  }

  /** generate_galaxy's outer arm loop: arms 0 .. arms - 1 after both cores. */
  method PushArms(m: Math, gaus: Sampler, start: nat, q: nat, cores: seq<Vec4>, from: nat)
    returns (points: seq<Vec4>, next: nat)
    requires |cores| == 2 * q && IsCloudPrefix(m, gaus, start, q, cores) && from == start + 6 * |cores|
    ensures |points| == ArmStart(ARMS, q) && IsCloudPrefix(m, gaus, start, q, points)
    ensures next == start + 6 * |points|
  {
    points, next := cores, from;
    for i := 0 to ARMS
      invariant |points| == ArmStart(i, q) && IsCloudPrefix(m, gaus, start, q, points)
      invariant next == start + 6 * |points|
    {
      points, next := PushArm(m, gaus, start, q, i, points, next);
    }
  }

  /**
   * Galaxy::generate_galaxy(n_points, radius) with its gaus_rand draws read
   * from `start` on; `next` is where the following rand() call reads. The
   * `radius` argument plays no part: no centre translation is applied.
   */
  method GenerateGalaxy(m: Math, gaus: Sampler, start: nat, nPoints: nat, radius: real)
    returns (points: seq<Vec4>, next: nat)
    ensures points == GalaxyPoints(m, gaus, start, nPoints)
    ensures next == start + 6 * |points|
  {
    var q := nPoints / 4;
    points, next := PushCorePoints(m, gaus, start, q);
    points, next := PushOuterCorePoints(m, gaus, start, q, points, next);
    points, next := PushArms(m, gaus, start, q, points, next);
    ArmStartBounds(ARMS, q);
    assert |points| == GalaxySize(nPoints);
  }
}
