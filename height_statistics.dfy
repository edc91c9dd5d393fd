/** The probe-height report: one entry per requested slot, and the mean and
    deviation of the heights that were measured, over exact real arithmetic.
    The deviation is kept squared, since the square root is not available over
    `real`. */
module HeightStatistics {
  import opened ProbeStatus

  /** What the report says of one slot. */
  datatype HeightEntry = NotSet | ProbingFailed | Measured(z: real)

  /** A slot is reported as "not set" unless both coordinates are recorded,
      then as "probing failed" if its probe error flag is set, and otherwise
      by its height. */
  function Classify(p: PointStatus, z: real): (e: HeightEntry)
    ensures e.Measured? <==> Good(p)
    ensures e.NotSet? <==> !FullySet(p)
    ensures e.Measured? ==> e.z == z
  {
    if !FullySet(p) then NotSet
    else if p.probeError then ProbingFailed
    else Measured(z)
  }

  /** The firmware's `fsquare`. */
  function Square(t: real): real {
    t * t
  }

  /** The contribution of an entry to the running sums: its height if measured,
      nothing otherwise. */
  function HeightOf(e: HeightEntry): real {
    if e.Measured? then e.z else 0.0
  }

  /** Sum of the measured heights, accumulated from the first entry on. */
  function SumOfHeights(entries: seq<HeightEntry>): real {
    if entries == [] then 0.0
    else SumOfHeights(entries[..|entries| - 1]) + HeightOf(entries[|entries| - 1])
  }

  /** Sum of the squares of the measured heights, accumulated from the first entry on. */
  function SumOfSquares(entries: seq<HeightEntry>): (q: real)
    ensures q >= 0.0
  {
    if entries == [] then 0.0
    else
      SumOfSquares(entries[..|entries| - 1]) + Square(HeightOf(entries[|entries| - 1]))
  }

  /** The summary line of the report. With no entries the firmware divides by
      zero, which the model does not represent: it has no summary then. */
  datatype Summary = Undefined | Summary(mean: real, deviationSquared: real)

  function Max(a: real, b: real): real {
    if a < b then b else a
  }

  /** The mean divides the sum of the measured heights by the number of
      entries, measured or not; the squared deviation is the mean square less
      the square of the mean, floored at 0. */
  function Summarise(entries: seq<HeightEntry>): Summary {
    if entries == [] then Undefined
    else Statistics(|entries| as real, SumOfHeights(entries), SumOfSquares(entries))
  }

  /** The summary of n entries whose heights sum to `sum` and whose squares
      sum to `sumOfSquares`. */
  function Statistics(n: real, sum: real, sumOfSquares: real): Summary
    requires n > 0.0
  {
    var mean := sum / n;
    Summary(mean, Max(sumOfSquares / n - Square(mean), 0.0))
  }

  /** The square of the sum of the measured heights is at most the number
      of entries times their sum of squares (the Cauchy-Schwarz inequality;
      entries without a height count as height 0). */
  lemma {:induction false} SquareOfSumBound(entries: seq<HeightEntry>)
    ensures Square(SumOfHeights(entries)) <= (|entries| as real) * SumOfSquares(entries)
  {
    if entries != [] {
      var init := entries[..|entries| - 1];
      SquareOfSumBound(init);
      if |init| == 0 {
        assert SumOfHeights(init) == 0.0;
      }
      StepBound(SumOfHeights(init), SumOfSquares(init), |init| as real, HeightOf(entries[|entries| - 1]));
    }
  }

  /** Adding one height z to k heights with sum s and sum of squares q keeps
      the square of the sum within the count times the sum of squares. */
  lemma StepBound(s: real, q: real, k: real, z: real)
    requires k >= 0.0 && q >= 0.0 && Square(s) <= k * q
    requires k == 0.0 ==> s == 0.0
    ensures Square(s + z) <= (k + 1.0) * (q + Square(z))
  {
    CrossTermBound(s, q, k, z);
    assert Square(s + z) == Square(s) + 2.0 * s * z + Square(z);
    assert (k + 1.0) * (q + Square(z)) == k * q + q + k * Square(z) + Square(z);
  }

  /** The cross term of the square of a sum: 2*s*z <= q + k*z*z. */
  lemma CrossTermBound(s: real, q: real, k: real, z: real)
    requires k >= 0.0 && q >= 0.0 && Square(s) <= k * q
    requires k == 0.0 ==> s == 0.0
    ensures 2.0 * s * z <= q + k * Square(z)
  {
    if k > 0.0 {
      var x := q + k * Square(z) - 2.0 * s * z;
      assert k * x == k * q + k * k * Square(z) - 2.0 * k * s * z;
      assert Square(s - k * z) == Square(s) - 2.0 * k * s * z + k * k * Square(z);
      SquareNonNegative(s - k * z);
      assert k * x >= 0.0;
      NonNegativeFactor(k, x);
    }
  }

  lemma SquareNonNegative(t: real)
    ensures Square(t) >= 0.0
  {
  }

  lemma PositiveProduct(a: real, b: real)
    requires a > 0.0 && b > 0.0
    ensures a * b > 0.0
  {
  }

  /** A non-negative product with a positive factor has a non-negative other factor. */
  lemma NonNegativeFactor(k: real, x: real)
    requires k > 0.0 && k * x >= 0.0
    ensures x >= 0.0
  {
    if x < 0.0 {
      PositiveProduct(k, -x);
    }
  }

  /** With n > 0 and s*s <= n*q, the mean square q/n is at least the square
      of the mean s/n. */
  lemma MeanSquareBound(n: real, s: real, q: real)
    requires n > 0.0
    requires Square(s) <= n * q
    ensures Statistics(n, s, q).deviationSquared == q / n - Square(s / n)
  {
    var m := s / n;
    assert n * m == s;
    // n * (q - m*s) == n*q - s*s >= 0
    assert n * (q - m * s) == n * q - Square(s);
    NonNegativeFactor(n, q - m * s);
    // n * (q/n - m*m) == q - m*s >= 0
    assert n * (q / n - Square(m)) == q - m * s;
    NonNegativeFactor(n, q / n - Square(m));
  }

  /** In exact arithmetic the mean square is never below the square of the
      mean, so the floor at 0 never changes the deviation: the guard only
      protects against rounding. */
  lemma DeviationFloorIsInactive(entries: seq<HeightEntry>)
    requires entries != []
    ensures Summarise(entries).Summary?
    ensures Summarise(entries).deviationSquared
            == SumOfSquares(entries) / (|entries| as real) - Square(SumOfHeights(entries) / (|entries| as real))
  {
    SquareOfSumBound(entries);
    MeanSquareBound(|entries| as real, SumOfHeights(entries), SumOfSquares(entries));
  }
}
