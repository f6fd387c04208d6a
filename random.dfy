/**
 * RandomNum::random_float and RandomNum::gaus_rand. The process-wide rand()
 * generator is an explicit stream: the i-th value rand() returns is rng(i),
 * and a sampler reading it at cursor `pos` is told which values it may use.
 */
module Random {
  import opened RealMath

  /** RAND_MAX of glibc; the C standard only promises at least 32767. */
  const RAND_MAX: nat := 2147483647

  /** One value returned by rand(). */
  type Draw = k: int | 0 <= k <= RAND_MAX

  /**
   * The values successive rand() calls return: rng(0), rng(1), ... (a
   * negative position is never read).
   */
  type Stream = int -> Draw

  /** random_float(a, b) on the draw k: a + (k / RAND_MAX) * (b - a). */
  function RandomFloat(k: Draw, a: real, b: real): (r: real)
    ensures a <= b ==> a <= r <= b
    ensures b <= a ==> b <= r <= a
    ensures k == 0 ==> r == a
    ensures k == RAND_MAX ==> r == b
    ensures a == b ==> r == a
  {
    var random := k as real / RAND_MAX as real;
    Interpolate(a, b, random);
    a + random * (b - a)
  }

  /** Moving from a towards b by a fraction t in [0, 1] stays between a and b. */
  lemma Interpolate(a: real, b: real, t: real)
    requires 0.0 <= t <= 1.0
    ensures a <= b ==> a <= a + t * (b - a) <= b
    ensures b <= a ==> b <= a + t * (b - a) <= a
  {
    var d := b - a;
    if 0.0 <= d {
      assert 0.0 <= t * d && 0.0 <= (1.0 - t) * d;
    } else {
      assert t * d <= 0.0 && (1.0 - t) * d <= 0.0;
    }
  }

  /** The first Box-Muller operand, u = 1 - random_float(0, 1). */
  function BoxMullerU(k: Draw): (u: real)
    ensures 0.0 <= u <= 1.0
    ensures u == 0.0 <==> k == RAND_MAX
  {
    1.0 - RandomFloat(k, 0.0, 1.0)
  }

  /** The standard-normal value sqrt(-2 log u) cos(2 PI v) from the draws for u and v. */
  function BoxMullerZ(m: Math, uDraw: Draw, vDraw: Draw): (z: real)
    ensures var u := BoxMullerU(uDraw);
      SqrtLaw(m) && PythagoreanLaw(m) && m.log(u) <= 0.0 ==> z * z <= -2.0 * m.log(u)
  {
    var u := BoxMullerU(uDraw);
    var v := RandomFloat(vDraw, 0.0, 1.0);
    var s, c := m.sqrt(-2.0 * m.log(u)), m.cos(2.0 * PI * v);
    assert SqrtLaw(m) && PythagoreanLaw(m) && m.log(u) <= 0.0 ==> (s * c) * (s * c) <= -2.0 * m.log(u) by {
      if SqrtLaw(m) && PythagoreanLaw(m) && m.log(u) <= 0.0 {
        var sn := m.sin(2.0 * PI * v);
        assert s * s == -2.0 * m.log(u);
        assert c * c + sn * sn == 1.0;
        assert c * c <= 1.0;
        assert (s * c) * (s * c) == (s * s) * (c * c);
      }
    }
    s * c
  }

  /**
   * gaus_rand(mean, stddev) reading rand() at `pos`: u comes from rng(pos)
   * and v from rng(pos + 1), so a caller's next draw is at pos + 2.
   */
  function GausRand(m: Math, rng: Stream, pos: int, mean: real, stddev: real): (r: real)
    ensures stddev == 0.0 ==> r == mean
  {
    var z := BoxMullerZ(m, rng(pos), rng(pos + 1));
    z * stddev + mean
  }

  /** The sample is affine in the standard-normal value: undoing the scale and shift recovers it. */
  lemma GausRandIsAffine(m: Math, rng: Stream, pos: int, mean: real, stddev: real)
    requires stddev != 0.0
    ensures (GausRand(m, rng, pos, mean, stddev) - mean) / stddev == BoxMullerZ(m, rng(pos), rng(pos + 1))
  {
  }

  /** gaus_rand reads exactly the two draws at pos and pos + 1: streams that agree there give the same sample. */
  lemma GausRandReadsTwoDraws(m: Math, rng: Stream, rng': Stream, pos: int, mean: real, stddev: real)
    requires rng(pos) == rng'(pos) && rng(pos + 1) == rng'(pos + 1)
    ensures GausRand(m, rng, pos, mean, stddev) == GausRand(m, rng', pos, mean, stddev)
  {
  }

  /**
   * gaus_rand as a value: g(pos, mean, stddev) is the sample gaus_rand(mean,
   * stddev) returns when its two draws are the ones at pos and pos + 1.
   */
  type Sampler = (int, real, real) -> real

  /** The sampler the program uses: RandomNum::gaus_rand on the stream rng. */
  function GausSampler(m: Math, rng: Stream): Sampler {
    (pos: int, mean: real, stddev: real) => GausRand(m, rng, pos, mean, stddev)
  }

  /** Streams that agree on [lo, hi) give samplers that agree wherever both of their draws lie there. */
  lemma GausSamplersAgree(m: Math, rng: Stream, rng': Stream, lo: int, hi: int)
    requires forall e :: lo <= e < hi ==> rng(e) == rng'(e)
    ensures forall e, mean, stddev :: lo <= e < hi - 1 ==> GausSampler(m, rng)(e, mean, stddev) == GausSampler(m, rng')(e, mean, stddev)
  {
    forall e, mean, stddev | lo <= e < hi - 1
      ensures GausSampler(m, rng)(e, mean, stddev) == GausSampler(m, rng')(e, mean, stddev)
    {
      GausRandReadsTwoDraws(m, rng, rng', e, mean, stddev);
    }
  }
}
