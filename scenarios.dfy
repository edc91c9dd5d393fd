/** Client-side walks through the point set, in the way the firmware's bed
    probing drives it: each shows what a caller can conclude from the
    contracts of `RandomProbePointSet` alone. */
module Scenarios {
  import opened ProbeStatus
  import opened HeightStatistics
  import opened BedProbing

  /** Records (x, y, z) at slot i as a successful, uncorrected probe. */
  method Probe(points: RandomProbePointSet, i: nat, x: real, y: real, z: real)
    requires points.Valid() && i < MaxProbePoints
    modifies points.xBedProbePoints, points.yBedProbePoints, points.zBedProbePoints, points.probePointSet
    ensures points.Valid()
    ensures points.xBedProbePoints[..] == old(points.xBedProbePoints[..])[i := x]
    ensures points.yBedProbePoints[..] == old(points.yBedProbePoints[..])[i := y]
    ensures points.zBedProbePoints[..] == old(points.zBedProbePoints[..])[i := z]
    ensures points.probePointSet[..] == old(points.probePointSet[..])[i :=
              old(points.probePointSet[i]).(xySet := true, zSet := true, xyCorrected := false, probeError := false)]
  {
    points.SetXYBedProbePoint(i, x, y);
    points.SetZBedProbePoint(i, z, false, false);
  }

  /** Three points (0,0,0), (0,1,2), (1,1,4) in clockwise order: the plane fit
      succeeds and reproduces the height at (0, 0). */
  method PlaneFit() {
    var points := new RandomProbePointSet();
    Probe(points, 0, 0.0, 0.0, 0.0);
    Probe(points, 1, 0.0, 1.0, 2.0);
    Probe(points, 2, 1.0, 1.0, 4.0);
    var good := points.GoodProbePoints(3);
    assert good;
    var count := points.NumberOfProbePoints();
    assert points.probePointSet[3] == Unset;
    assert count == 3;
    var error := points.SetProbedBedEquation(3);
    assert !error;
    assert points.GetInterpolatedHeightError(0.0, 0.0) == 0.0;
    assert points.GetInterpolatedHeightError(1.0, 1.0) == 4.0;
  }

  /** Corners (0,0,0), (0,1,1), (1,1,2), (1,0,1): the ruled-surface fit takes
      the mean of the corners at the centre and each corner's height at that
      corner. */
  method RuledSurfaceFit() {
    var points := new RandomProbePointSet();
    Probe(points, 0, 0.0, 0.0, 0.0);
    Probe(points, 1, 0.0, 1.0, 1.0);
    Probe(points, 2, 1.0, 1.0, 2.0);
    Probe(points, 3, 1.0, 0.0, 1.0);
    var error := points.SetProbedBedEquation(4);
    assert !error;
    assert points.GetInterpolatedHeightError(0.5, 0.5) == 1.0;
    assert points.GetInterpolatedHeightError(1.0, 1.0) == 2.0;
    assert points.GetInterpolatedHeightError(1.0, 0.0) == 1.0;
  }

  /** A fit rejected for its ordering leaves the previous compensation in
      force. */
  method MisorderedFitKeepsModel() {
    var points := new RandomProbePointSet();
    Probe(points, 0, 0.0, 0.0, 0.0);
    Probe(points, 1, 0.0, 1.0, 2.0);
    Probe(points, 2, 1.0, 1.0, 4.0);
    var error := points.SetProbedBedEquation(3);
    assert !error;
    var plane := (points.aX, points.aY, points.aC);
    // Point 1 is no longer above point 0.
    Probe(points, 1, 0.0, -1.0, 2.0);
    error := points.SetProbedBedEquation(3);
    assert error;
    assert points.numBedCompensationPoints == 3;
    assert (points.aX, points.aY, points.aC) == plane;
  }

  /** Only 3 and 4 points can be fitted; other counts fail and change nothing. */
  method UnsupportedCountsKeepModel() {
    var points := new RandomProbePointSet();
    Probe(points, 0, 0.0, 0.0, 0.0);
    Probe(points, 1, 0.0, 1.0, 1.0);
    Probe(points, 2, 1.0, 1.0, 2.0);
    Probe(points, 3, 1.0, 0.0, 1.0);
    var error := points.SetProbedBedEquation(2);
    assert error;
    error := points.SetProbedBedEquation(5);
    assert error;
    assert points.numBedCompensationPoints == 0;
    assert points.GetInterpolatedHeightError(0.5, 0.5) == 0.0;
  }

  /** Clearing the heights undefines every point but keeps the XY of each. */
  method ClearKeepsXY() {
    var points := new RandomProbePointSet();
    Probe(points, 0, 3.0, 4.0, 0.5);
    points.ClearProbeHeights();
    var count := points.NumberOfProbePoints();
    assert count == 0;
    assert points.probePointSet[0].xySet;
    assert points.xBedProbePoints[0] == 3.0 && points.yBedProbePoints[0] == 4.0;
    var good := points.GoodProbePoints(1);
    assert !good;
  }

  /** Heights 1, 2 and 3 report a mean of 2 and a squared deviation of 2/3. */
  method Report() {
    var points := new RandomProbePointSet();
    Probe(points, 0, 0.0, 0.0, 1.0);
    Probe(points, 1, 0.0, 1.0, 2.0);
    Probe(points, 2, 1.0, 1.0, 3.0);
    var entries, summary := points.ReportProbeHeights(3);
    var one, two := [Measured(1.0)], [Measured(1.0), Measured(2.0)];
    assert entries == two + [Measured(3.0)];
    assert entries[..2] == two && two[..1] == one && one[..0] == [];
    assert SumOfHeights(one) == 1.0 && SumOfSquares(one) == 1.0;
    assert SumOfHeights(two) == 3.0 && SumOfSquares(two) == 5.0;
    assert SumOfHeights(entries) == 6.0 && SumOfSquares(entries) == 14.0;
    assert summary == Summary(2.0, 2.0 / 3.0);
  }
}
