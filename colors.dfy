/** colors.cpp: the colour table main.cpp reads and its uniform index sampler. */
module Colors {
  import opened Random
  import opened Palette

  /** Colors::n_star_colors. */
  const N_STAR_COLORS: nat := 6

  /** Colors::star_colors, M-type to B-type. */
  const STAR_COLORS: seq<Rgb> := [
    Rgb8ToF(0xff, 0x53, 0x49),
    Rgb8ToF(0xff, 0xae, 0x42),
    Rgb8ToF(0xf4, 0xa0, 0x3f),
    Rgb8ToF(0xfc, 0xf3, 0xcf),
    Rgb8ToF(0xff, 0xff, 0xff),
    Rgb8ToF(0xd6, 0xea, 0xf8)
  ]

  lemma StarColorsShape()
    ensures |STAR_COLORS| == N_STAR_COLORS
    ensures forall i :: 0 <= i < |STAR_COLORS| ==>
      0.0 <= STAR_COLORS[i].r <= 1.0 && 0.0 <= STAR_COLORS[i].g <= 1.0 && 0.0 <= STAR_COLORS[i].b <= 1.0
  {
  }

  /** std::round: to the nearest integer, halves away from zero. */
  function Round(x: real): (n: int)
    ensures 0.0 <= x ==> n as real - 0.5 <= x < n as real + 0.5
    ensures x < 0.0 ==> n as real - 0.5 < x <= n as real + 0.5
  {
    if x >= 0.0 then (x + 0.5).Floor else -((-x + 0.5).Floor)
  }

  /**
   * rand_star_color_idx on the draw k: round(random_float(0, n_star_colors - 1)).
   * The result is always a valid subscript of STAR_COLORS.
   */
  function RandStarColorIdx(k: Draw): (idx: nat)
    ensures idx < N_STAR_COLORS && idx < |STAR_COLORS|
    ensures k == 0 ==> idx == 0
    ensures k == RAND_MAX ==> idx == N_STAR_COLORS - 1
    ensures idx as real - 0.5 <= RandomFloat(k, 0.0, 5.0) < idx as real + 0.5
  {
    var x := RandomFloat(k, 0.0, (N_STAR_COLORS - 1) as real);
    var n := Round(x);
    assert 0 <= n;
    n
  }
}
