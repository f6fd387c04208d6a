/**
 * star.cpp: the spectral-type tables and the weighted sampler
 * Star::rand_star_type_idx, which walks the frequency table subtracting each
 * weight from a uniform draw in [0, 100] until the draw falls in a bucket.
 */
module Star {
  import opened Wrappers
  import opened Random
  import opened Palette

  /** Star::n_star_colors. */
  const N_STAR_COLORS: nat := 6

  /** Star::star_colors, cool to hot. */
  const STAR_COLORS: seq<Rgb> := [
    Rgb8ToF(0xff, 0xcc, 0x6f),
    Rgb8ToF(0xff, 0xd2, 0xa1),
    Rgb8ToF(0xff, 0xf4, 0xea),
    Rgb8ToF(0xf8, 0xf7, 0xff),
    Rgb8ToF(0xca, 0xd7, 0xff),
    Rgb8ToF(0xaa, 0xbf, 0xff)
  ]

  /** Star::star_size_mults. */
  const STAR_SIZE_MULTS: seq<real> := [2.0, 2.0, 2.0, 2.0, 2.5, 3.5]

  /** Star::star_probabilities: frequency weights in percent. */
  const STAR_PROBABILITIES: seq<real> := [76.45, 12.1, 7.6, 3.0, 0.6, 0.13]

  /** The sum of a weight table. */
  function Sum(w: seq<real>): real {
    if w == [] then 0.0 else w[0] + Sum(w[1..])
  }

  lemma TablesShape()
    ensures |STAR_COLORS| == |STAR_SIZE_MULTS| == |STAR_PROBABILITIES| == N_STAR_COLORS
    ensures forall i, j :: 0 <= i < j < N_STAR_COLORS ==> STAR_PROBABILITIES[j] < STAR_PROBABILITIES[i]
    ensures forall i, j :: 0 <= i < j < N_STAR_COLORS ==> STAR_SIZE_MULTS[i] <= STAR_SIZE_MULTS[j]
    ensures Sum(STAR_PROBABILITIES) == 99.88
  {
  }

  /**
   * The bucket the decrement walk stops at: the first i such that
   * r - (w[0] + ... + w[i-1]) lies in [0, w[i]], or None when no entry matches.
   */
  function FirstBucket(w: seq<real>, r: real): (b: Option<nat>)
    ensures b.Some? ==> b.value < |w|
  {
    if w == [] then None
    else if IsInRange(0.0, w[0], r) then Some(0)
    else match FirstBucket(w[1..], r - w[0])
      case None => None
      case Some(i) => Some(i + 1)
  }

  /** Moves a bucket found in a suffix of the table to its index in the whole table. */
  function Shifted(b: Option<nat>, offset: nat): Option<nat> {
    match b
    case None => None
    case Some(i) => Some(i + offset)
  }

  /** Whether the walk, having subtracted the weights before entry j, finds the draw in bucket j. */
  predicate MatchesAt(w: seq<real>, r: real, j: nat)
    requires j < |w|
  {
    IsInRange(0.0, w[j], r - Sum(w[..j]))
  }

  lemma {:induction false} MatchesAtShift(w: seq<real>, r: real, j: nat)
    requires j + 1 < |w|
    ensures MatchesAt(w, r, j + 1) == MatchesAt(w[1..], r - w[0], j)
  {
    assert w[..j + 1][1..] == w[1..][..j];
  }

  /**
   * FirstBucket picks i exactly when the decremented draw is in bucket i and
   * in none of the buckets before it.
   */
  lemma {:induction false} FirstBucketIsFirstMatch(w: seq<real>, r: real, i: nat)
    requires i < |w|
    ensures FirstBucket(w, r) == Some(i) <==>
      MatchesAt(w, r, i) && forall j :: 0 <= j < i ==> !MatchesAt(w, r, j)
  {
    assert w[..0] == [];
    if i > 0 {
      var w', r' := w[1..], r - w[0];
      FirstBucketIsFirstMatch(w', r', i - 1);
      forall j | 0 <= j < i
        ensures MatchesAt(w, r, j + 1) == MatchesAt(w', r', j)
      {
        MatchesAtShift(w, r, j);
      }
      if MatchesAt(w, r, i) && forall j :: 0 <= j < i ==> !MatchesAt(w, r, j) {
        assert !MatchesAt(w, r, 0);
        forall j | 0 <= j < i - 1
          ensures !MatchesAt(w', r', j)
        {
          assert !MatchesAt(w, r, j + 1);
        }
        assert FirstBucket(w', r') == Some(i - 1);
        assert Sum(w[..0]) == 0.0;
        assert !IsInRange(0.0, w[0], r);
      }
      if FirstBucket(w, r) == Some(i) {
        assert !IsInRange(0.0, w[0], r) && FirstBucket(w', r') == Some(i - 1);
        assert Sum(w[..0]) == 0.0;
        forall j | 0 <= j < i
          ensures !MatchesAt(w, r, j)
        {
          if j > 0 {
            assert !MatchesAt(w', r', j - 1);
          }
        }
      }
    }
  }

  /** FirstBucket finds nothing exactly when no bucket matches. */
  lemma {:induction false} FirstBucketNoneIffNoMatch(w: seq<real>, r: real)
    ensures FirstBucket(w, r) == None <==> forall j :: 0 <= j < |w| ==> !MatchesAt(w, r, j)
  {
    if FirstBucket(w, r).Some? {
      FirstBucketIsFirstMatch(w, r, FirstBucket(w, r).value);
    } else if j :| 0 <= j < |w| && MatchesAt(w, r, j) {
      LeastMatchIsFound(w, r, j);
    }
  }

  lemma {:induction false} LeastMatchIsFound(w: seq<real>, r: real, j: nat)
    requires j < |w| && MatchesAt(w, r, j)
    ensures FirstBucket(w, r).Some?
    decreases j
  {
    if forall i :: 0 <= i < j ==> !MatchesAt(w, r, i) {
      FirstBucketIsFirstMatch(w, r, j);
    } else {
      var i :| 0 <= i < j && MatchesAt(w, r, i);
      LeastMatchIsFound(w, r, i);
    }
  }

  /**
   * With non-negative weights and a non-negative draw, the walk falls off the
   * end of a non-empty table exactly when the draw exceeds the sum of all weights.
   */
  lemma {:induction false} FallsThroughIffAboveTotal(w: seq<real>, r: real)
    requires |w| > 0
    requires forall j :: 0 <= j < |w| ==> 0.0 <= w[j]
    requires 0.0 <= r
    ensures FirstBucket(w, r) == None <==> Sum(w) < r
  {
    SumNonNegative(w[1..]);
    if r <= w[0] {
    } else if |w| == 1 {
      assert w[1..] == [];
    } else {
      FallsThroughIffAboveTotal(w[1..], r - w[0]);
    }
  }

  lemma {:induction false} SumNonNegative(w: seq<real>)
    requires forall j :: 0 <= j < |w| ==> 0.0 <= w[j]
    ensures 0.0 <= Sum(w)
  {
    if w != [] {
      SumNonNegative(w[1..]);
    }
  }

  /** The size_t conversion of a non-negative float: truncation toward zero. */
  function TruncateToSize(x: real): (n: nat)
    requires 0.0 <= x
    ensures n as real <= x < n as real + 1.0
  {
    x.Floor
  }

  /**
   * What rand_star_type_idx returns for the draw k: the first matching bucket,
   * and otherwise star_probabilities[n_star_colors - 1] (0.13) converted to
   * size_t, which is 0 and not the last index.
   */
  function StarTypeIdxAsWritten(k: Draw): (idx: nat)
    ensures idx < N_STAR_COLORS
  {
    match FirstBucket(STAR_PROBABILITIES, RandomFloat(k, 0.0, 100.0))
    case Some(i) => i
    case None => TruncateToSize(STAR_PROBABILITIES[N_STAR_COLORS - 1])
  }

  /** Star::rand_star_type_idx on the draw k, as written. */
  method RandStarTypeIdx(k: Draw) returns (idx: nat)
    ensures idx == StarTypeIdxAsWritten(k)
  {
    var randVal := RandomFloat(k, 0.0, 100.0);
    for i := 0 to N_STAR_COLORS
      invariant FirstBucket(STAR_PROBABILITIES, RandomFloat(k, 0.0, 100.0))
        == Shifted(FirstBucket(STAR_PROBABILITIES[i..], randVal), i)
    {
      assert STAR_PROBABILITIES[i..][1..] == STAR_PROBABILITIES[i + 1..];
      if IsInRange(0.0, STAR_PROBABILITIES[i], randVal) {
        return i;
      }
      randVal := randVal - STAR_PROBABILITIES[i];
    }
    assert STAR_PROBABILITIES[N_STAR_COLORS..] == [];
    return TruncateToSize(STAR_PROBABILITIES[N_STAR_COLORS - 1]);
  }

  /** The sampler with the fallback the table layout calls for: the last spectral type. */
  function StarTypeIdx(k: Draw): (idx: nat)
    ensures idx < N_STAR_COLORS
    ensures idx == StarTypeIdxAsWritten(k) || idx == N_STAR_COLORS - 1
  {
    FirstBucket(STAR_PROBABILITIES, RandomFloat(k, 0.0, 100.0)).GetOr(N_STAR_COLORS - 1)
  }

  /**
   * The draws that reach the fallback are those above the weight sum 99.88;
   * the source then returns type 0, the intended sampler type 5.
   */
  lemma {:induction false} FallbackCases(k: Draw)
    ensures RandomFloat(k, 0.0, 100.0) <= 99.88 ==> StarTypeIdx(k) == StarTypeIdxAsWritten(k)
    ensures 99.88 < RandomFloat(k, 0.0, 100.0) ==>
      StarTypeIdxAsWritten(k) == 0 && StarTypeIdx(k) == N_STAR_COLORS - 1
  {
    TablesShape();
    FallsThroughIffAboveTotal(STAR_PROBABILITIES, RandomFloat(k, 0.0, 100.0));
  }

  /** The largest draw, RAND_MAX, is such a draw: rand_star_type_idx returns the commonest type for it. */
  lemma LargestDrawFallsBackToFirstType()
    ensures StarTypeIdxAsWritten(RAND_MAX) == 0
    ensures StarTypeIdx(RAND_MAX) == N_STAR_COLORS - 1
  {
    FallbackCases(RAND_MAX);
  }

  /** Every draw up to 76.45 lands in the first bucket. */
  lemma LowDrawsAreFirstType(k: Draw)
    requires RandomFloat(k, 0.0, 100.0) <= 76.45
    ensures StarTypeIdxAsWritten(k) == 0 && StarTypeIdx(k) == 0
  {
  }
}
