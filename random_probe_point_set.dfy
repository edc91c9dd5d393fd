/** The fixed-capacity probe point store behind 3- and 4-point bed
    compensation: per-slot XY, Z and status flags, the ordering check, the fit
    of a plane or a ruled surface, and the height-error query. */
module BedProbing {
  import opened ProbeStatus
  import opened SurfaceFit
  import opened HeightStatistics

  /** The capacity of the point set. The firmware takes it from a configuration
      header that is not part of this model; nothing below depends on the
      value beyond its being at least 4. */
  const MaxProbePoints: nat := 32

  class RandomProbePointSet {
    const probePointSet: array<PointStatus>
    const xBedProbePoints: array<real>
    const yBedProbePoints: array<real>
    const zBedProbePoints: array<real>
    /** 0 when no compensation is active, otherwise the number of points of the active fit. */
    var numBedCompensationPoints: nat
    /** Plane coefficients of the 3-point fit: height error aX*x + aY*y + aC. */
    var aX: real
    var aY: real
    var aC: real
    /** Reciprocal X and Y spans of the 4-point fit's rectangle. */
    var xRectangle: real
    var yRectangle: real

    ghost predicate Valid()
      reads this
    {
      && probePointSet.Length == MaxProbePoints
      && xBedProbePoints.Length == MaxProbePoints
      && yBedProbePoints.Length == MaxProbePoints
      && zBedProbePoints.Length == MaxProbePoints
      && xBedProbePoints != yBedProbePoints
      && xBedProbePoints != zBedProbePoints
      && yBedProbePoints != zBedProbePoints
      && numBedCompensationPoints in {0, 3, 4}
    }

    /** The recorded coordinates of slot i. */
    function ProbePoint(i: nat): Point3
      requires Valid() && i < MaxProbePoints
      reads this, xBedProbePoints, yBedProbePoints, zBedProbePoints
    {
      Point3(xBedProbePoints[i], yBedProbePoints[i], zBedProbePoints[i])
    }

    /** Every slot starts unset with height 0, and no compensation is active,
        so every height query answers 0. */
    constructor ()
      ensures Valid()
      ensures fresh(probePointSet) && fresh(xBedProbePoints) && fresh(yBedProbePoints) && fresh(zBedProbePoints)
      ensures forall i :: 0 <= i < MaxProbePoints ==> probePointSet[i] == Unset && zBedProbePoints[i] == 0.0
      ensures numBedCompensationPoints == 0
      ensures forall x: real, y: real :: GetInterpolatedHeightError(x, y) == 0.0
    {
      probePointSet := new PointStatus[MaxProbePoints];
      xBedProbePoints := new real[MaxProbePoints];
      yBedProbePoints := new real[MaxProbePoints];
      zBedProbePoints := new real[MaxProbePoints];
      numBedCompensationPoints := 0;
      new;
      for point := 0 to MaxProbePoints
        invariant numBedCompensationPoints == 0
        invariant forall i :: 0 <= i < point ==> probePointSet[i] == Unset && zBedProbePoints[i] == 0.0
      {
        probePointSet[point] := Unset;
        zBedProbePoints[point] := 0.0;
      }
    }

    /** Records the XY of slot `index` and marks it XY-set; every other flag
        of the slot, and every other slot, is left as it was. */
    method SetXYBedProbePoint(index: nat, x: real, y: real)
      requires Valid() && index < MaxProbePoints
      modifies xBedProbePoints, yBedProbePoints, probePointSet
      ensures Valid()
      ensures xBedProbePoints[..] == old(xBedProbePoints[..])[index := x]
      ensures yBedProbePoints[..] == old(yBedProbePoints[..])[index := y]
      ensures probePointSet[..] == old(probePointSet[..])[index := old(probePointSet[index]).(xySet := true)]
    {
      xBedProbePoints[index] := x;
      yBedProbePoints[index] := y;
      probePointSet[index] := probePointSet[index].(xySet := true);
    }

    /** Records the Z of slot `index` and marks it Z-set. The correction and
        error flags are overwritten with the two arguments rather than
        accumulated; the XY flag, the coordinates and the other slots are
        left as they were. */
    method SetZBedProbePoint(index: nat, z: real, wasXyCorrected: bool, wasError: bool)
      requires Valid() && index < MaxProbePoints
      modifies zBedProbePoints, probePointSet
      ensures Valid()
      ensures zBedProbePoints[..] == old(zBedProbePoints[..])[index := z]
      ensures probePointSet[..] == old(probePointSet[..])[index :=
                old(probePointSet[index]).(zSet := true, xyCorrected := wasXyCorrected, probeError := wasError)]
    {
      zBedProbePoints[index] := z;
      probePointSet[index] := probePointSet[index].(zSet := true);
      if wasXyCorrected {
        probePointSet[index] := probePointSet[index].(xyCorrected := true);
      } else {
        probePointSet[index] := probePointSet[index].(xyCorrected := false);
      }
      if wasError {
        probePointSet[index] := probePointSet[index].(probeError := true);
      } else {
        probePointSet[index] := probePointSet[index].(probeError := false);
      }
    }

    /** The number of probe points currently defined: the length of the
        longest prefix of slots with both XY and Z recorded. */
    method NumberOfProbePoints() returns (count: nat)
      requires Valid()
      ensures count <= MaxProbePoints
      ensures forall i :: 0 <= i < count ==> FullySet(probePointSet[i])
      ensures count < MaxProbePoints ==> !FullySet(probePointSet[count])
      ensures count == DefinedPrefix(probePointSet[..])
    {
      for i := 0 to MaxProbePoints
        invariant forall j :: 0 <= j < i ==> FullySet(probePointSet[j])
      {
        if !FullySet(probePointSet[i]) {
          return i;
        }
      }
      return MaxProbePoints;
    }

    /** Forgets every recorded height by clearing the Z flag of every slot.
        The XY flags and coordinates, the other flags and the active fit are
        kept, and afterwards no probe point is defined. */
    method ClearProbeHeights()
      requires Valid()
      modifies probePointSet
      ensures Valid()
      ensures forall i :: 0 <= i < MaxProbePoints ==> probePointSet[i] == old(probePointSet[i]).(zSet := false)
      ensures DefinedPrefix(probePointSet[..]) == 0
    {
      for i := 0 to MaxProbePoints
        invariant forall j :: 0 <= j < i ==> probePointSet[j] == old(probePointSet[j]).(zSet := false)
        invariant forall j :: i <= j < MaxProbePoints ==> probePointSet[j] == old(probePointSet[j])
      {
        probePointSet[i] := probePointSet[i].(zSet := false);
      }
      NoHeightsNoPoints(probePointSet[..]);
    }

    /** Whether each of the first `numPoints` slots has XY and Z recorded and
        no probe error. */
    method GoodProbePoints(numPoints: nat) returns (good: bool)
      requires Valid() && numPoints <= MaxProbePoints
      ensures good <==> forall i :: 0 <= i < numPoints ==> Good(probePointSet[i])
    {
      for i := 0 to numPoints
        invariant forall j :: 0 <= j < i ==> Good(probePointSet[j])
      {
        if !Good(probePointSet[i]) {
          return false;
        }
      }
      return true;
    }

    /** The points must run clockwise starting near minimum X and Y: point 1
        above point 0, point 2 right of point 1, point 3 below point 2 and
        right of point 0, each rule applying once that many points are used. */
    function GoodProbePointOrdering(numPoints: nat): (ordered: bool)
      requires Valid()
      reads this, xBedProbePoints, yBedProbePoints
      ensures ordered <==>
        && (numPoints >= 2 ==> yBedProbePoints[1] > yBedProbePoints[0])
        && (numPoints >= 3 ==> xBedProbePoints[2] > xBedProbePoints[1])
        && (numPoints >= 4 ==> yBedProbePoints[3] < yBedProbePoints[2])
        && (numPoints >= 4 ==> xBedProbePoints[0] < xBedProbePoints[3])
    {
      if numPoints >= 2 && yBedProbePoints[1] <= yBedProbePoints[0] then false
      else if numPoints >= 3 && xBedProbePoints[2] <= xBedProbePoints[1] then false
      else if numPoints >= 4 && yBedProbePoints[3] >= yBedProbePoints[2] then false
      else if numPoints >= 4 && xBedProbePoints[0] >= xBedProbePoints[3] then false
      else true
    }

    /** Fits the compensation surface to the first `numPoints` points,
        returning true on error. It fails, changing nothing, when the points
        are out of order or `numPoints` is neither 3 nor 4. Otherwise 3 points
        give the plane through them and 4 points the ruled surface over the
        rectangle from corner 0 to corners 1 and 3, and the point count
        becomes `numPoints`. */
    method SetProbedBedEquation(numPoints: nat) returns (error: bool)
      requires Valid()
      modifies this
      ensures Valid()
      ensures error <==> !GoodProbePointOrdering(numPoints) || numPoints !in {3, 4}
      ensures error ==> unchanged(this)
      ensures !error ==> numBedCompensationPoints == numPoints
      // The plane fit leaves the rectangle alone, and, when the points are not
      // collinear seen from above, passes through all three points.
      ensures !error && numPoints == 3 ==> xRectangle == old(xRectangle) && yRectangle == old(yRectangle)
      ensures !error && numPoints == 3 && NormalZ(ProbePoint(0), ProbePoint(1), ProbePoint(2)) != 0.0 ==>
                Plane(aX, aY, aC) == FitPlane(ProbePoint(0), ProbePoint(1), ProbePoint(2))
                && (forall i :: 0 <= i < 3 ==>
                      GetInterpolatedHeightError(xBedProbePoints[i], yBedProbePoints[i]) == zBedProbePoints[i])
      // The ruled-surface fit leaves the plane alone and takes each corner's
      // height at the corresponding corner of the rectangle.
      ensures !error && numPoints == 4 ==>
                aX == old(aX) && aY == old(aY) && aC == old(aC)
                && xRectangle == 1.0 / (xBedProbePoints[3] - xBedProbePoints[0])
                && yRectangle == 1.0 / (yBedProbePoints[1] - yBedProbePoints[0])
      ensures !error && numPoints == 4 ==>
                var x0, x3, y0, y1 := xBedProbePoints[0], xBedProbePoints[3], yBedProbePoints[0], yBedProbePoints[1];
                && GetInterpolatedHeightError(x0, y0) == zBedProbePoints[0]
                && GetInterpolatedHeightError(x0, y1) == zBedProbePoints[1]
                && GetInterpolatedHeightError(x3, y1) == zBedProbePoints[2]
                && GetInterpolatedHeightError(x3, y0) == zBedProbePoints[3]
    {
      if !GoodProbePointOrdering(numPoints) {
        return true;
      }
      if numPoints == 3 {
        var p0, p1, p2 := ProbePoint(0), ProbePoint(1), ProbePoint(2);
        if NormalZ(p0, p1, p2) != 0.0 {
          var plane := FitPlane(p0, p1, p2);
          aX, aY, aC := plane.aX, plane.aY, plane.aC;
          PlaneFitPassesThroughPoints(p0, p1, p2);
        } else {
          // The firmware divides by zero here and stores non-finite
          // coefficients, which real arithmetic cannot represent.
          aX, aY, aC := *, *, *;
        }
      } else if numPoints == 4 {
        xRectangle := 1.0 / (xBedProbePoints[3] - xBedProbePoints[0]);
        yRectangle := 1.0 / (yBedProbePoints[1] - yBedProbePoints[0]);
        RuledSurfaceAtCorners(xBedProbePoints[0], xBedProbePoints[3], yBedProbePoints[0], yBedProbePoints[1],
                              zBedProbePoints[0], zBedProbePoints[1], zBedProbePoints[2], zBedProbePoints[3]);
      } else {
        return true;
      }
      numBedCompensationPoints := numPoints;
      return false;
    }

    /** The height error of the active compensation at (x, y): the plane for
        3 points, the ruled surface over the live corner heights for 4, and
        0 when no compensation is active. */
    function GetInterpolatedHeightError(x: real, y: real): (h: real)
      requires Valid()
      reads this, xBedProbePoints, yBedProbePoints, zBedProbePoints
      ensures numBedCompensationPoints == 0 ==> h == 0.0
    {
      if numBedCompensationPoints == 3 then
        PlaneHeight(Plane(aX, aY, aC), x, y)
      else if numBedCompensationPoints == 4 then
        SecondDegreeTransformZ(xBedProbePoints[0], yBedProbePoints[0], xRectangle, yRectangle,
                               zBedProbePoints[0], zBedProbePoints[1], zBedProbePoints[2], zBedProbePoints[3], x, y)
      else
        0.0
    }

    /** The probe-height report for the first `numPoints` slots: one entry
        per slot, and the mean and squared deviation of the measured
        heights. */
    method ReportProbeHeights(numPoints: nat) returns (entries: seq<HeightEntry>, summary: Summary)
      requires Valid() && numPoints <= MaxProbePoints
      ensures |entries| == numPoints
      ensures forall i :: 0 <= i < numPoints ==> entries[i] == Classify(probePointSet[i], zBedProbePoints[i])
      ensures summary == Summarise(entries)
    {
      entries := [];
      var sum, sumOfSquares := 0.0, 0.0;
      for i := 0 to numPoints
        invariant |entries| == i
        invariant forall j :: 0 <= j < i ==> entries[j] == Classify(probePointSet[j], zBedProbePoints[j])
        invariant sum == SumOfHeights(entries) && sumOfSquares == SumOfSquares(entries)
      {
        var entry := Classify(probePointSet[i], zBedProbePoints[i]);
        if entry.Measured? {
          sum := sum + zBedProbePoints[i];
          sumOfSquares := sumOfSquares + Square(zBedProbePoints[i]);
        }
        assert (entries + [entry])[..i] == entries;
        entries := entries + [entry];
      }
      if numPoints == 0 {
        summary := Undefined;
      } else {
        var mean := sum / numPoints as real;
        summary := Summary(mean, Max(sumOfSquares / numPoints as real - Square(mean), 0.0));
      }
    }
  }
}
