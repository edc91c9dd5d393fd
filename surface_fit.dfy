/** The two surfaces a 3- or 4-point bed compensation fits, over exact real
    arithmetic: a plane through three probe points, and a ruled (bilinear)
    surface over the rectangle spanned by four. The firmware computes both in
    single-precision floating point; these definitions are the ideal it
    approximates. */
module SurfaceFit {

  /** A probe point: planar position and measured height. */
  datatype Point3 = Point3(x: real, y: real, z: real)

  /** A plane given as height error aX*x + aY*y + aC. */
  datatype Plane = Plane(aX: real, aY: real, aC: real)

  function PlaneHeight(plane: Plane, x: real, y: real): real {
    plane.aX * x + plane.aY * y + plane.aC
  }

  /** The Z component of the normal (p1 - p0) x (p2 - p0); it is zero exactly
      when the three points are collinear when seen from above. */
  function NormalZ(p0: Point3, p1: Point3, p2: Point3): real {
    (p1.x - p0.x) * (p2.y - p0.y) - (p1.y - p0.y) * (p2.x - p0.x)
  }

  /** The plane through three points: normal (a, b, c) = (p1 - p0) x (p2 - p0),
      constant d through p1, and the coefficients normalised by -c. */
  function FitPlane(p0: Point3, p1: Point3, p2: Point3): Plane
    requires NormalZ(p0, p1, p2) != 0.0
  {
    var x10, y10, z10 := p1.x - p0.x, p1.y - p0.y, p1.z - p0.z;
    var x20, y20, z20 := p2.x - p0.x, p2.y - p0.y, p2.z - p0.z;
    var a := y10 * z20 - z10 * y20;
    var b := z10 * x20 - x10 * z20;
    var c := x10 * y20 - y10 * x20;
    var d := -(p1.x * a + p1.y * b + p1.z * c);
    Plane(-a / c, -b / c, -d / c)
  }

  /** A plane passes through p when its height at p's position is p's height. */
  predicate PassesThrough(plane: Plane, p: Point3) {
    PlaneHeight(plane, p.x, p.y) == p.z
  }

  /** Scaling a height relation by a non-zero factor: c*h == c*z gives h == z. */
  lemma CancelFactor(c: real, h: real, z: real)
    requires c != 0.0
    requires c * h == c * z
    ensures h == z
  {
  }

  /** The height of (-a/c, -b/c, -d/c) at (x, y) times c is -(a*x + b*y + d). */
  lemma ScaledPlaneHeight(a: real, b: real, c: real, d: real, x: real, y: real)
    requires c != 0.0
    ensures c * PlaneHeight(Plane(-a / c, -b / c, -d / c), x, y) == -(a * x + b * y + d)
  {
    calc {
      c * PlaneHeight(Plane(-a / c, -b / c, -d / c), x, y);
      c * ((-a / c) * x + (-b / c) * y + (-d / c));
      c * (-a / c) * x + c * (-b / c) * y + c * (-d / c);
      { assert c * (-a / c) == -a; assert c * (-b / c) == -b; assert c * (-d / c) == -d; }
      -a * x - b * y - d;
    }
  }

  /** A point on the plane a*x + b*y + c*z + d == 0 lies on its normalised
      form (-a/c, -b/c, -d/c). */
  lemma OnNormalisedPlane(a: real, b: real, c: real, d: real, p: Point3)
    requires c != 0.0
    requires a * p.x + b * p.y + c * p.z + d == 0.0
    ensures PassesThrough(Plane(-a / c, -b / c, -d / c), p)
  {
    ScaledPlaneHeight(a, b, c, d, p.x, p.y);
    CancelFactor(c, PlaneHeight(Plane(-a / c, -b / c, -d / c), p.x, p.y), p.z);
  }

  /** The cross product of two vectors is orthogonal to both. */
  lemma CrossProductOrthogonal(x1: real, y1: real, z1: real, x2: real, y2: real, z2: real)
    ensures (y1 * z2 - z1 * y2) * x1 + (z1 * x2 - x1 * z2) * y1 + (x1 * y2 - y1 * x2) * z1 == 0.0
    ensures (y1 * z2 - z1 * y2) * x2 + (z1 * x2 - x1 * z2) * y2 + (x1 * y2 - y1 * x2) * z2 == 0.0
  {
  }

  /** The fitted plane passes through all three points it was fitted to. */
  lemma PlaneFitPassesThroughPoints(p0: Point3, p1: Point3, p2: Point3)
    requires NormalZ(p0, p1, p2) != 0.0
    ensures PassesThrough(FitPlane(p0, p1, p2), p0)
    ensures PassesThrough(FitPlane(p0, p1, p2), p1)
    ensures PassesThrough(FitPlane(p0, p1, p2), p2)
  {
    var x10, y10, z10 := p1.x - p0.x, p1.y - p0.y, p1.z - p0.z;
    var x20, y20, z20 := p2.x - p0.x, p2.y - p0.y, p2.z - p0.z;
    var a := y10 * z20 - z10 * y20;
    var b := z10 * x20 - x10 * z20;
    var c := x10 * y20 - y10 * x20;
    var d := -(p1.x * a + p1.y * b + p1.z * c);
    assert FitPlane(p0, p1, p2) == Plane(-a / c, -b / c, -d / c);
    // p1 lies on a*x + b*y + c*z + d == 0 by the choice of d, and p0 and p2
    // differ from p1 by vectors orthogonal to the normal.
    assert a * p1.x + b * p1.y + c * p1.z + d == 0.0;
    OnNormalisedPlane(a, b, c, d, p1);
    assert a * p0.x + b * p0.y + c * p0.z + d == 0.0 by {
      CrossProductOrthogonal(x10, y10, z10, x20, y20, z20);
      assert a * p0.x + b * p0.y + c * p0.z + d
             == -(a * x10 + b * y10 + c * z10) + (a * p1.x + b * p1.y + c * p1.z + d);
    }
    OnNormalisedPlane(a, b, c, d, p0);
    assert a * p2.x + b * p2.y + c * p2.z + d == 0.0 by {
      CrossProductOrthogonal(x10, y10, z10, x20, y20, z20);
      assert a * p2.x + b * p2.y + c * p2.z + d
             == (a * x20 + b * y20 + c * z20) - (a * x10 + b * y10 + c * z10)
                + (a * p1.x + b * p1.y + c * p1.z + d);
    }
    OnNormalisedPlane(a, b, c, d, p2);
  }

  /** Three points that are not collinear from above lie on exactly one plane
      of the form aX*x + aY*y + aC: the fitted one. */
  lemma PlaneFitIsUnique(p0: Point3, p1: Point3, p2: Point3, plane: Plane)
    requires NormalZ(p0, p1, p2) != 0.0
    requires PassesThrough(plane, p0) && PassesThrough(plane, p1) && PassesThrough(plane, p2)
    ensures plane == FitPlane(p0, p1, p2)
  {
    var fit := FitPlane(p0, p1, p2);
    PlaneFitPassesThroughPoints(p0, p1, p2);
    // The difference of the two planes vanishes at all three points.
    var dA, dB, dC := plane.aX - fit.aX, plane.aY - fit.aY, plane.aC - fit.aC;
    assert dA * p0.x + dB * p0.y + dC == 0.0;
    assert dA * p1.x + dB * p1.y + dC == 0.0;
    assert dA * p2.x + dB * p2.y + dC == 0.0;
    var x10, y10 := p1.x - p0.x, p1.y - p0.y;
    var x20, y20 := p2.x - p0.x, p2.y - p0.y;
    var c := x10 * y20 - y10 * x20;
    assert dA * c == 0.0 by {
      assert dA * x10 + dB * y10 == 0.0;
      assert dA * x20 + dB * y20 == 0.0;
      calc {
        dA * c;
        (dA * x10) * y20 - (dA * x20) * y10;
        (-dB * y10) * y20 - (-dB * y20) * y10;
        0.0;
      }
    }
    assert dB * c == 0.0 by {
      assert dA * x10 + dB * y10 == 0.0;
      assert dA * x20 + dB * y20 == 0.0;
      calc {
        dB * c;
        x10 * (dB * y20) - x20 * (dB * y10);
        x10 * (-dA * x20) - x20 * (-dA * x10);
        0.0;
      }
    }
    CancelFactor(c, dA, 0.0);
    CancelFactor(c, dB, 0.0);
  }

  /** When the three points are at one height the fitted plane is level at
      that height. */
  lemma LevelPointsFitLevelPlane(p0: Point3, p1: Point3, p2: Point3)
    requires NormalZ(p0, p1, p2) != 0.0
    requires p1.z == p0.z && p2.z == p0.z
    ensures FitPlane(p0, p1, p2) == Plane(0.0, 0.0, p0.z)
  {
    PlaneFitIsUnique(p0, p1, p2, Plane(0.0, 0.0, p0.z));
  }

  /** The ruled-surface height at (x, y): the position is mapped to (u, v) by
      offsetting from corner 0 and scaling, and the four corner heights are
      blended bilinearly. Corners are numbered clockwise from low X and low Y:
      0 = (low X, low Y), 1 = (low X, high Y), 2 = (high X, high Y),
      3 = (high X, low Y). There is no clamping: outside the rectangle the
      surface extrapolates. */
  function SecondDegreeTransformZ(x0: real, y0: real, xScale: real, yScale: real,
                                  z0: real, z1: real, z2: real, z3: real,
                                  x: real, y: real): real
  {
    var u := (x - x0) * xScale;
    var v := (y - y0) * yScale;
    (1.0 - u) * (1.0 - v) * z0 + u * (1.0 - v) * z3 + (1.0 - u) * v * z1 + u * v * z2
  }

  /** With the scales the 4-point fit stores, the ruled surface takes each
      corner's height at that corner of the rectangle [x0, x3] x [y0, y1]. */
  lemma RuledSurfaceAtCorners(x0: real, x3: real, y0: real, y1: real,
                              z0: real, z1: real, z2: real, z3: real)
    requires x3 != x0 && y1 != y0
    ensures SecondDegreeTransformZ(x0, y0, 1.0 / (x3 - x0), 1.0 / (y1 - y0), z0, z1, z2, z3, x0, y0) == z0
    ensures SecondDegreeTransformZ(x0, y0, 1.0 / (x3 - x0), 1.0 / (y1 - y0), z0, z1, z2, z3, x0, y1) == z1
    ensures SecondDegreeTransformZ(x0, y0, 1.0 / (x3 - x0), 1.0 / (y1 - y0), z0, z1, z2, z3, x3, y1) == z2
    ensures SecondDegreeTransformZ(x0, y0, 1.0 / (x3 - x0), 1.0 / (y1 - y0), z0, z1, z2, z3, x3, y0) == z3
  {
    assert (x3 - x0) * (1.0 / (x3 - x0)) == 1.0;
    assert (y1 - y0) * (1.0 / (y1 - y0)) == 1.0;
  }

  /** At the centre of the rectangle the ruled surface is the mean of the four
      corner heights. */
  lemma RuledSurfaceAtCentre(x0: real, x3: real, y0: real, y1: real,
                             z0: real, z1: real, z2: real, z3: real)
    requires x3 != x0 && y1 != y0
    ensures SecondDegreeTransformZ(x0, y0, 1.0 / (x3 - x0), 1.0 / (y1 - y0), z0, z1, z2, z3,
                                   (x0 + x3) / 2.0, (y0 + y1) / 2.0)
            == (z0 + z1 + z2 + z3) / 4.0
  {
    assert ((x0 + x3) / 2.0 - x0) * (1.0 / (x3 - x0)) == 0.5 by {
      assert (x0 + x3) / 2.0 - x0 == (x3 - x0) / 2.0;
      assert (x3 - x0) * (1.0 / (x3 - x0)) == 1.0;
    }
    assert ((y0 + y1) / 2.0 - y0) * (1.0 / (y1 - y0)) == 0.5 by {
      assert (y0 + y1) / 2.0 - y0 == (y1 - y0) / 2.0;
      assert (y1 - y0) * (1.0 / (y1 - y0)) == 1.0;
    }
  }

  /** Along the low-Y edge the ruled surface is the straight line through the
      heights of corners 0 and 3, for every x, inside the rectangle or not. */
  lemma RuledSurfaceLowEdgeIsLinear(x0: real, x3: real, y0: real, y1: real,
                                    z0: real, z1: real, z2: real, z3: real, x: real)
    requires x3 != x0 && y1 != y0
    ensures SecondDegreeTransformZ(x0, y0, 1.0 / (x3 - x0), 1.0 / (y1 - y0), z0, z1, z2, z3, x, y0)
            == z0 + (x - x0) / (x3 - x0) * (z3 - z0)
  {
    var u := (x - x0) * (1.0 / (x3 - x0));
    assert u == (x - x0) / (x3 - x0);
    assert (y0 - y0) * (1.0 / (y1 - y0)) == 0.0;
  }
}
