/**
 * sphere.cpp: Sphere::sphere_vertices, the triangle list of the unit sphere
 * drawn for every particle. Ring i of the latitude grid sits at the angle
 * 270 + (180 / (rings + 1)) i degrees and slice j at 360 j / slices degrees;
 * every (ring, slice) cell of the grid emits two triangles, 18 floats.
 */
module Sphere {
  import opened RealMath
  import opened Glm

  /** The float deg_to_rad. */
  const DEG_TO_RAD: real := 0.0174532925
  const RINGS: nat := 10
  const SLICES: nat := 10
  /** The loop emits ring bands 0 .. rings + 1. */
  const BANDS: nat := RINGS + 2
  /** Floats per cell: six vertices of three floats. */
  const CELL_FLOATS: nat := 18

  /** The latitude of ring i, in degrees. */
  function RingDegrees(i: nat): real {
    270.0 + (180.0 / (RINGS + 1) as real) * i as real
  }

  /** The longitude of slice j, in degrees. */
  function SliceDegrees(j: nat): real {
    360.0 * j as real / SLICES as real
  }

  /** The grid point of ring i and slice j: (cos phi sin theta, sin phi, cos phi cos theta). */
  function Vertex(m: Math, i: nat, j: nat): (v: Vec3)
    ensures var theta := DEG_TO_RAD * SliceDegrees(j); v.x * m.cos(theta) == v.z * m.sin(theta)
    ensures var phi := DEG_TO_RAD * RingDegrees(i);
      PythagoreanLaw(m) ==> v.x * v.x + v.z * v.z == m.cos(phi) * m.cos(phi)
  {
    var phi := DEG_TO_RAD * RingDegrees(i);
    var theta := DEG_TO_RAD * SliceDegrees(j);
    Vec3(m.cos(phi) * m.sin(theta), m.sin(phi), m.cos(phi) * m.cos(theta))
  }

  /** The three floats push_back appends for a vertex. */
  function Floats(v: Vec3): seq<real> {
    [v.x, v.y, v.z]
  }

  /**
   * The 18 floats of cell (i, j): the triangles A, B, C and A, D, B with
   * A = (i, j), B = (i + 1, j + 1), C = (i + 1, j) and D = (i, j + 1).
   */
  function CellFloats(m: Math, i: nat, j: nat): (r: seq<real>)
    ensures |r| == CELL_FLOATS
  {
    var a, b := Vertex(m, i, j), Vertex(m, i + 1, j + 1);
    var c, d := Vertex(m, i + 1, j), Vertex(m, i, j + 1);
    Floats(a) + Floats(b) + Floats(c) + Floats(a) + Floats(d) + Floats(b)
  }

  /** The floats of the first n cells of band i. */
  function BandFloats(m: Math, i: nat, n: nat): (r: seq<real>)
    ensures |r| == CELL_FLOATS * n
  {
    if n == 0 then [] else BandFloats(m, i, n - 1) + CellFloats(m, i, n - 1)
  }

  /** The floats of bands 0 .. n - 1, each of all its slices. */
  function MeshFloats(m: Math, n: nat): (r: seq<real>)
    ensures |r| == CELL_FLOATS * SLICES * n
  {
    if n == 0 then [] else MeshFloats(m, n - 1) + BandFloats(m, n - 1, SLICES)
  }

  /** Where cell (i, j) starts in the vertex list: cells are laid out band by band. */
  function CellStart(i: nat, j: nat): nat {
    CELL_FLOATS * (SLICES * i + j)
  }

  /**
   * Sphere::sphere_vertices: the outer loop runs over the bands, the inner
   * one (PushBand) over the slices.
   */
  method SphereVertices(m: Math) returns (vertices: seq<real>)
    ensures vertices == MeshFloats(m, BANDS)
  {
    vertices := [];
    for i := 0 to BANDS
      invariant vertices == MeshFloats(m, i)
    {
      vertices := PushBand(m, i, vertices);
    }
  }

  /** The inner loop of sphere_vertices: each cell of band i appends its six vertices. */
  method PushBand(m: Math, i: nat, before: seq<real>) returns (vertices: seq<real>)
    ensures vertices == before + BandFloats(m, i, SLICES)
  {
    vertices := before;
    for j := 0 to SLICES
      invariant vertices == before + BandFloats(m, i, j)
    {
      var a, b := Vertex(m, i, j), Vertex(m, i + 1, j + 1);
      var c, d := Vertex(m, i + 1, j), Vertex(m, i, j + 1);
      vertices := vertices + Floats(a) + Floats(b) + Floats(c);
      vertices := vertices + Floats(a) + Floats(d) + Floats(b);
      CellStep(m, i, j, before, a, b, c, d);
    }
  }

  /** Appending the six vertices of cell (i, j) extends band i by that cell. */
  lemma CellStep(m: Math, i: nat, j: nat, before: seq<real>, a: Vec3, b: Vec3, c: Vec3, d: Vec3)
    requires a == Vertex(m, i, j) && b == Vertex(m, i + 1, j + 1)
    requires c == Vertex(m, i + 1, j) && d == Vertex(m, i, j + 1)
    ensures before + BandFloats(m, i, j) + Floats(a) + Floats(b) + Floats(c) + Floats(a) + Floats(d) + Floats(b)
         == before + BandFloats(m, i, j + 1)
  {
    var six := Floats(a) + Floats(b) + Floats(c) + Floats(a) + Floats(d) + Floats(b);
    assert BandFloats(m, i, j + 1) == BandFloats(m, i, j) + six;
  }

  /** sphere_vertices returns 18 (rings + 2) slices floats: 2160 for the 10 x 10 grid. */
  lemma VertexCount(m: Math)
    ensures |MeshFloats(m, BANDS)| == CELL_FLOATS * BANDS * SLICES == 2160
  {
  }

  /** Float t of cell j within band i. */
  lemma {:induction false} BandFloatsAt(m: Math, i: nat, n: nat, j: nat, t: nat)
    requires j < n && t < CELL_FLOATS
    ensures BandFloats(m, i, n)[CELL_FLOATS * j + t] == CellFloats(m, i, j)[t]
  {
    if j < n - 1 {
      BandFloatsAt(m, i, n - 1, j, t);
    }
  }

  /** Float t of cell (n - 1, j), the last band of MeshFloats(m, n). */
  lemma LastBandAt(m: Math, n: nat, j: nat, t: nat)
    requires 0 < n && j < SLICES && t < CELL_FLOATS
    ensures CellStart(n - 1, j) + t < |MeshFloats(m, n)|
    ensures MeshFloats(m, n)[CellStart(n - 1, j) + t] == CellFloats(m, n - 1, j)[t]
  {
    var before := MeshFloats(m, n - 1);
    assert CellStart(n - 1, j) + t == |before| + (CELL_FLOATS * j + t);
    BandFloatsAt(m, n - 1, SLICES, j, t);
  }

  /** Row-major order: float t of cell (i, j) sits at CellStart(i, j) + t. */
  lemma {:induction false} MeshFloatsAt(m: Math, n: nat, i: nat, j: nat, t: nat)
    requires i < n && j < SLICES && t < CELL_FLOATS
    ensures CellStart(i, j) + t < |MeshFloats(m, n)|
    ensures MeshFloats(m, n)[CellStart(i, j) + t] == CellFloats(m, i, j)[t]
  {
    if i < n - 1 {
      MeshFloatsAt(m, n - 1, i, j, t);
      assert MeshFloats(m, n) == MeshFloats(m, n - 1) + BandFloats(m, n - 1, SLICES);
    } else {
      LastBandAt(m, n, j, t);
    }
  }

  /**
   * The two triangles of a cell share the diagonal A-B (the fourth vertex
   * repeats the first and the sixth the second), and every vertex of ring i
   * has the height of ring i whatever its slice.
   */
  lemma CellShape(m: Math, i: nat, j: nat)
    ensures var r := CellFloats(m, i, j);
      r[9..12] == r[0..3] && r[15..18] == r[3..6]
      && r[1] == r[10] == r[13] == m.sin(DEG_TO_RAD * RingDegrees(i))
      && r[4] == r[7] == r[16] == m.sin(DEG_TO_RAD * RingDegrees(i + 1))
  {
  }

  /** A vertex's height depends on its ring alone. */
  lemma HeightByRing(m: Math, i: nat, j: nat, j': nat)
    ensures Vertex(m, i, j).y == Vertex(m, i, j').y
  {
  }

  /** Given cos^2 + sin^2 = 1, every grid point lies on the unit sphere. */
  lemma VertexOnUnitSphere(m: Math, i: nat, j: nat)
    requires PythagoreanLaw(m)
    ensures var v := Vertex(m, i, j); v.x * v.x + v.y * v.y + v.z * v.z == 1.0
  {
    var phi := DEG_TO_RAD * RingDegrees(i);
    var theta := DEG_TO_RAD * SliceDegrees(j);
    var cp, sp, ct, st := m.cos(phi), m.sin(phi), m.cos(theta), m.sin(theta);
    assert cp * cp + sp * sp == 1.0;
    assert st * st + ct * ct == 1.0;
    calc {
      (cp * st) * (cp * st) + sp * sp + (cp * ct) * (cp * ct);
      (cp * cp) * (st * st + ct * ct) + sp * sp;
      cp * cp + sp * sp;
    }
  }

  /**
   * Ring rings + 1 is the north pole (450 degrees), so the last band the
   * loop emits, from ring rings + 1 to ring rings + 2, runs past the pole.
   */
  lemma LastBandPassesPole()
    ensures RingDegrees(0) == 270.0 && RingDegrees(RINGS + 1) == 450.0
    ensures RingDegrees(BANDS) > 450.0
  {
  }
}
