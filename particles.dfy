/**
 * main.cpp, particle set-up: the positions of C galaxies generated one after
 * another, then one pass over the particles that gives each its starting
 * velocity (tangential, by distance band from its galaxy's centre), its
 * base colour and its radius record. The set-up is stated for any particle
 * count n and centre list; the program's own values are N_PARTICLES and
 * GALAXY_CENTERS.
 */
module Particles {
  import opened RealMath
  import opened Glm
  import opened Random
  import opened Palette
  import opened Colors
  import opened Galaxy

  /** n_particles. */
  const N_PARTICLES: nat := 100000

  /** galaxy_centers: one galaxy (the second centre is commented out). */
  const GALAXY_CENTERS: seq<Vec3> := [Vec3(-500.0, 0.0, 0.0)]

  /** particle_mass: 10 / (n / 2000). */
  function ParticleMass(n: nat): (mass: real)
    requires 0 < n
    ensures 0.0 < mass
    ensures mass * n as real == 20000.0
  {
    10.0 / (n as real / 2000.0)
  }

  /**
   * What the set-up demands of n and the C centres: at least one centre, and
   * 4 C divides n, so that each galaxy gets n / C points, a multiple of four,
   * and the clouds fill exactly the n slots the init loop reads.
   */
  predicate Layout(n: nat, c: nat) {
    0 < c && 0 < n && n % (4 * c) == 0
  }

  /** The program's constants meet the layout: 100000 particles, one centre, mass 0.2. */
  lemma ProgramLayout()
    ensures Layout(N_PARTICLES, |GALAXY_CENTERS|)
    ensures ParticleMass(N_PARTICLES) == 0.2
  {
  }

  /**
   * The positions of `count` galaxies of `size` requested points each,
   * generated one after another with the draws starting at `start`.
   */
  function Clouds(m: Math, gaus: Sampler, start: nat, size: nat, count: nat): (points: seq<Vec4>)
    ensures |points| == count * GalaxySize(size)
  {
    if count == 0 then []
    else
      var before := Clouds(m, gaus, start, size, count - 1);
      before + GalaxyPoints(m, gaus, start + 6 * |before|, size)
  }

  /** d t is a multiple of d. */
  lemma MultipleMod(d: nat, t: nat)
    requires 0 < d
    ensures (d * t) % d == 0 && (d * t) / d == t
  {
    var n := d * t;
    var q, r := n / d, n % d;
    assert n == d * q + r && 0 <= r < d;
    assert d * (t - q) == r;
    if t - q >= 1 {
      assert false;
    } else if t - q <= -1 {
      assert false;
    }
  }

  /**
   * The C clouds, each of n / C points rounded down to a multiple of four,
   * fill the n particle slots exactly when 4 C divides n.
   */
  lemma CloudsFillTheSlots(n: nat, c: nat)
    requires 0 < c
    ensures c * GalaxySize(n / c) == n <==> n % (4 * c) == 0
  {
    var g := GalaxySize(n / c);
    assert g == 4 * ((n / c) / 4);
    if n % (4 * c) == 0 {
      var t := n / (4 * c);
      assert n == (4 * c) * t;
      assert n == c * (4 * t);
      MultipleMod(c, 4 * t);
      MultipleMod(4, t);
      assert n / c == 4 * t;
    }
    if c * g == n {
      MultipleMod(4 * c, (n / c) / 4);
      assert c * g == (4 * c) * ((n / c) / 4);
    }
  }

  /** The galaxy particle i belongs to: i / (n / C), its block of n / C particles. */
  function GalaxyIndex(i: nat, n: nat, c: nat): (g: nat)
    requires 0 < c <= n
    ensures g * (n / c) <= i < (g + 1) * (n / c)
  {
    BlockSizePositive(n, c);
    DivBlock(i, n / c)
  }

  /** i lies in block i / q of q. */
  function DivBlock(i: nat, q: nat): (g: nat)
    requires 0 < q
    ensures g * q <= i < (g + 1) * q
  {
    var g := i / q;
    assert i == g * q + i % q;
    g
  }

  lemma BlockSizePositive(n: nat, c: nat)
    requires 0 < c <= n
    ensures 0 < n / c
  {
    assert n == c * (n / c) + n % c;
  }

  /** When C divides n, every particle's galaxy index is a valid centre. */
  lemma GalaxyIndexBounds(i: nat, n: nat, c: nat)
    requires 0 < c <= n
    ensures i < n && n % c == 0 ==> GalaxyIndex(i, n, c) < c
  {
    var q := n / c;
    var g := GalaxyIndex(i, n, c);
    if i < n && n % c == 0 {
      assert n == c * q + n % c;
      assert n == c * q;
      assert g * q < c * q;
    }
  }

  /**
   * The speed by distance from the centre, as the overriding assignments
   * compute it: 7.5, then 0.05 dist below 200, sqrt(mass n / 2 dist) / 125
   * below 66, and sqrt(mass n / 8) / 100 * 0 below 33.
   */
  function SpeedMult(m: Math, dist: real, mass: real, n: nat): (mult: real)
    ensures dist < 33.0 ==> mult == 0.0
    ensures 33.0 <= dist < 66.0 ==> mult == m.sqrt(mass * n as real / 2.0 * dist) / 125.0
    ensures 66.0 <= dist < 200.0 ==> mult == 0.05 * dist
    ensures 200.0 <= dist ==> mult == 7.5
  {
    var far := 7.5;
    var outer := if dist < 200.0 then 0.05 * dist else far;
    var inner := if dist < 66.0 then m.sqrt(mass * n as real / 2.0 * dist) / 125.0 else outer;
    if dist < 33.0 then m.sqrt(mass * n as real / 8.0) / 100.0 * 0.0 else inner
  }

  /**
   * The starting velocity of a particle at pos around center:
   * vec4(cross(normalize(center - pos), up) * mult, 1). It lies in the
   * galaxy plane and is perpendicular to the direction of the centre.
   */
  function InitialVelocity(m: Math, pos: Vec4, center: Vec3, mass: real, n: nat): (v: Vec4)
    ensures v.y == 0.0 && v.w == 1.0
    ensures v.x * (center.x - pos.x) + v.z * (center.z - pos.z) == 0.0
  {
    var p := Xyz(pos);
    var dist := Distance(m, p, center);
    var dir := Cross(Normalize(m, Sub(center, p)), UP);
    var mult := SpeedMult(m, dist, mass, n);
    Tangential(m.inverseSqrt(Dot(Sub(center, p), Sub(center, p))), center.x - pos.x, center.y - pos.y, center.z - pos.z, mult);
    Vec4(dir.x * mult, dir.y * mult, dir.z * mult, 1.0)
  }

  /** cross((dx, dy, dz) s, up) scaled by mult is perpendicular to (dx, dz). */
  lemma Tangential(s: real, dx: real, dy: real, dz: real, mult: real)
    ensures var dir := Cross(Scale(Vec3(dx, dy, dz), s), UP);
      dir.y * mult == 0.0 && (dir.x * mult) * dx + (dir.z * mult) * dz == 0.0
  {
    var dir := Cross(Scale(Vec3(dx, dy, dz), s), UP);
    assert dir.x == -(dz * s) && dir.y == 0.0 && dir.z == dx * s;
    calc {
      (dir.x * mult) * dx + (dir.z * mult) * dz;
      -(dz * s) * mult * dx + (dx * s) * mult * dz;
      (s * mult) * (dx * dz - dx * dz);
      0.0;
    }
  }

  /** glm::vec3 of a star colour, whose w channel is dropped. */
  function RgbVec(c: Rgb): Vec3 {
    Vec3(c.r, c.g, c.b)
  }

  /**
   * The base colour of a particle with colour index idx:
   * vec4(normalize(star_colors[idx]), 1). Normalising rescales all three
   * channels alike, so their ratios (the hue) are kept.
   */
  function BaseColor(m: Math, idx: nat): (color: Vec4)
    requires idx < |STAR_COLORS|
    ensures color.w == 1.0
    ensures var c := STAR_COLORS[idx];
      color.x * c.g == color.y * c.r && color.y * c.b == color.z * c.g && color.x * c.b == color.z * c.r
  {
    var c := STAR_COLORS[idx];
    var v := Normalize(m, RgbVec(c));
    var s := m.inverseSqrt(Dot(RgbVec(c), RgbVec(c)));
    assert v.x * c.g == (c.r * c.g) * s == v.y * c.r;
    assert v.y * c.b == (c.g * c.b) * s == v.z * c.g;
    assert v.x * c.b == (c.r * c.b) * s == v.z * c.r;
    Vec4(v.x, v.y, v.z, 1.0)
  }

  /** The radius record of a particle with colour index idx: (sqrt(idx + 1), 0, 0, 0). */
  function RadiusRecord(m: Math, idx: nat): (radius: Vec4)
    ensures radius.y == 0.0 && radius.z == 0.0 && radius.w == 0.0
  {
    Vec4(m.sqrt((idx + 1) as real), 0.0, 0.0, 0.0)
  }

  /** With a true square root the radius is non-negative and its square is idx + 1, in [1, 6]. */
  lemma RadiusSquared(m: Math, idx: nat)
    requires SqrtLaw(m) && idx < N_STAR_COLORS
    ensures var r := RadiusRecord(m, idx).x;
      0.0 <= r && r * r == (idx + 1) as real && 1.0 <= r * r <= 6.0
  {
    assert 0.0 <= (idx + 1) as real;
  }

  /** The three records the init loop writes for one particle. */
  datatype Particle = Particle(velocity: Vec4, baseColor: Vec4, radius: Vec4)

  /**
   * The records of particle i: its velocity around the centre of its galaxy,
   * and the colour and radius of the colour index drawn from rng at colorStart + i.
   */
  function InitialParticle(m: Math, rng: Stream, n: nat, centers: seq<Vec3>, positions: seq<Vec4>,
                           colorStart: int, i: nat): (p: Particle)
    requires Layout(n, |centers|) && i < n && n <= |positions|
    ensures p.velocity.y == 0.0 && p.velocity.w == 1.0
    ensures p.baseColor.w == 1.0
    ensures p.radius.y == 0.0 && p.radius.z == 0.0 && p.radius.w == 0.0
  {
    LayoutDividesByCentres(n, |centers|);
    GalaxyIndexBounds(i, n, |centers|);
    var center := centers[GalaxyIndex(i, n, |centers|)];
    var idx := RandStarColorIdx(rng(colorStart + i));
    Particle(InitialVelocity(m, positions[i], center, ParticleMass(n), n), BaseColor(m, idx), RadiusRecord(m, idx))
  }

  /** 4 C dividing n makes C divide n, with C <= n. */
  lemma LayoutDividesByCentres(n: nat, c: nat)
    requires Layout(n, c)
    ensures n % c == 0 && c <= n
  {
    var t := n / (4 * c);
    assert n == (4 * c) * t;
    assert n == c * (4 * t);
    MultipleMod(c, 4 * t);
    assert t > 0;
  }

  /**
   * The positions loop: generate_galaxy for the first centre, then once more
   * for each further centre, appending; all draws come from one stream.
   */
  method GeneratePositions(m: Math, rng: Stream, n: nat, centers: seq<Vec3>)
    returns (positions: seq<Vec4>, next: nat)
    requires 0 < |centers|
    ensures positions == Clouds(m, GausSampler(m, rng), 0, n / |centers|, |centers|)
    ensures next == 6 * |positions|
  {
    var gaus := GausSampler(m, rng);
    var size := n / |centers|;
    positions, next := GenerateGalaxy(m, gaus, 0, size, 0.0);
    assert Clouds(m, gaus, 0, size, 0) == [];
    for i := 0 to |centers| - 1
      invariant positions == Clouds(m, gaus, 0, size, i + 1)
      invariant next == 6 * |positions|
    {
      var others;
      others, next := GenerateGalaxy(m, gaus, next, size, 0.0);
      positions := positions + others;
    }
  }

  /** The init loop: particle i's velocity, base colour and radius are written in place. */
  method InitParticles(m: Math, rng: Stream, n: nat, centers: seq<Vec3>, positions: seq<Vec4>,
                       colorStart: int, velocities: array<Vec4>, baseColors: array<Vec4>, radii: array<Vec4>)
    requires Layout(n, |centers|) && n <= |positions|
    requires velocities.Length == n && baseColors.Length == n && radii.Length == n
    requires velocities != baseColors && velocities != radii && baseColors != radii
    modifies velocities, baseColors, radii
    ensures forall i :: 0 <= i < n ==>
      Particle(velocities[i], baseColors[i], radii[i]) == InitialParticle(m, rng, n, centers, positions, colorStart, i)
  {
    for i := 0 to n
      invariant forall j :: 0 <= j < i ==>
        Particle(velocities[j], baseColors[j], radii[j]) == InitialParticle(m, rng, n, centers, positions, colorStart, j)
    {
      var p := InitialParticle(m, rng, n, centers, positions, colorStart, i);
      velocities[i] := p.velocity;
      baseColors[i] := p.baseColor;
      radii[i] := p.radius;
    }
  }

  /**
   * The whole set-up for n particles around the given centres: the positions,
   * then the five per-particle arrays of length n (lighting zeroed), filled by
   * the init loop with the colour draws that follow the position draws.
   */
  method SetupParticles(m: Math, rng: Stream, n: nat, centers: seq<Vec3>)
    returns (positions: seq<Vec4>, velocities: array<Vec4>, lighting: array<Vec4>,
             radii: array<Vec4>, baseColors: array<Vec4>)
    requires Layout(n, |centers|)
    ensures positions == Clouds(m, GausSampler(m, rng), 0, n / |centers|, |centers|)
    ensures |positions| == n
    ensures fresh(velocities) && fresh(lighting) && fresh(radii) && fresh(baseColors)
    ensures velocities.Length == n && lighting.Length == n && radii.Length == n && baseColors.Length == n
    ensures forall i :: 0 <= i < n ==> lighting[i] == Vec4(0.0, 0.0, 0.0, 0.0)
    ensures forall i :: 0 <= i < n ==>
      Particle(velocities[i], baseColors[i], radii[i]) == InitialParticle(m, rng, n, centers, positions, 6 * n, i)
  {
    var next;
    positions, next := GeneratePositions(m, rng, n, centers);
    CloudsFillTheSlots(n, |centers|);
    velocities := new Vec4[n](_ => Vec4(0.0, 0.0, 0.0, 0.0));
    lighting := new Vec4[n](_ => Vec4(0.0, 0.0, 0.0, 0.0));
    radii := new Vec4[n](_ => Vec4(0.0, 0.0, 0.0, 0.0));
    baseColors := new Vec4[n](_ => Vec4(0.0, 0.0, 0.0, 0.0));
    InitParticles(m, rng, n, centers, positions, next, velocities, baseColors, radii);
  }
}
