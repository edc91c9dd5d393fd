# RandomProbePointSet: 3- and 4-point bed compensation

This project is a Dafny model of `RandomProbePointSet`. It is the store that a
motion-control firmware uses for 3- and 4-point bed levelling. The store has a
fixed number of slots (`MaxProbePoints`). Each slot holds a probe point: an X, a
Y, a measured Z and four status flags (`xySet`, `zSet`, `xyCorrected`,
`probeError`). The caller records the XY of each slot, then its Z. It checks
that the points are good and in clockwise order, and fits one of two surfaces
to them: a plane through 3 points, or a ruled (bilinear) surface over the
rectangle spanned by 4. After that it asks for the height error at any (x, y).

The model follows the source file's own form:

- `BedProbing.RandomProbePointSet` (`random_probe_point_set.dfy`) is a class.
  It keeps the four per-slot arrays, the active point count
  `numBedCompensationPoints` and the fit coefficients. Its methods update them
  in place, as the firmware does. The scans in `NumberOfProbePoints`,
  `GoodProbePoints`, `ClearProbeHeights` and `ReportProbeHeights` are loops
  with invariants. The ordering check and the height query are functions of
  the current state.
- `ProbeStatus` (`probe_status.dfy`) holds the status flags and the "defined
  prefix" of slots.
- `SurfaceFit` (`surface_fit.dfy`) gives the plane and the ruled surface over
  exact `real` arithmetic, with what they promise: when the points are not
  collinear seen from above, the plane passes through its three points and is
  the only plane that does, and the ruled surface
  takes each corner's height at that corner.
- `HeightStatistics` (`height_statistics.dfy`) holds the probe-height report:
  how each slot is classified, and the mean and the squared deviation.
- `Scenarios` (`scenarios.dfy`) drives the class as a caller would. It checks
  the worked examples: the plane through (0,0,0), (0,1,2), (1,1,4); the ruled
  surface over (0,0,0), (0,1,1), (1,1,2), (1,0,1); fits rejected for their
  ordering or their point count; clearing the heights; and the report for
  heights 1, 2 and 3.

Floats are modelled as `real`. All fitting and statistics arithmetic is
therefore the exact ideal that the firmware's single-precision arithmetic
approximates. It is not claimed to match float rounding. The ordering check and
the flag logic use only comparisons and booleans, so they carry over exactly.

Notes on behaviour that the code has and a reader might not expect:

- `ReportProbeHeights` divides the sum of the measured heights by
  `numPoints`. That divisor counts the slots that are not set or whose probe
  failed, so the reported mean is not the mean of the measured heights alone
  whenever such a slot is among the first `numPoints`.
- The plane-fit divisor `c` is the Z component of the normal. It is zero
  exactly when the three points are collinear seen from above (`NormalZ`). It
  is not zero because of their heights.
- The ruled surface reads slot 0's X and Y and all four Z values live. Only the
  two reciprocal spans are stored. A later `SetXYBedProbePoint` on slot 0, or
  `SetZBedProbePoint` on any of slots 0-3, can therefore change the active
  4-point surface without a refit. An XY write to slots 1-3 does not, because
  x[3] and y[1] enter only through the stored spans. The plane keeps its
  stored coefficients.
- Recording slot `i` as a good probe makes `GoodProbePoints(i + 1)` true only
  when the first `i` slots were already good.
- With 4 points, the ordering check forces `x[3] > x[0]` and `y[1] > y[0]`. The
  two divisions of the 4-point fit therefore never divide by zero. Dafny
  checks this where `SetProbedBedEquation` computes them.

## Model

| member | source | states |
|---|---|---|
| `BedProbing.RandomProbePointSet.constructor` | src/Movement/BedProbing/RandomProbePointSet.cpp:33-40 | every slot starts unset with Z 0 and the point count is 0, so every height query answers 0 |
| `BedProbing.RandomProbePointSet.SetXYBedProbePoint` | src/Movement/BedProbing/RandomProbePointSet.cpp:43-48 | X and Y are stored at the slot and `xySet` is added; the slot's other flags, its Z and every other slot are unchanged |
| `BedProbing.RandomProbePointSet.SetZBedProbePoint` | src/Movement/BedProbing/RandomProbePointSet.cpp:51-73 | Z is stored and `zSet` added; `xyCorrected` and `probeError` become exactly the two arguments whatever they were before; `xySet`, X, Y and the other slots are unchanged |
| `BedProbing.RandomProbePointSet.NumberOfProbePoints` | src/Movement/BedProbing/RandomProbePointSet.cpp:75-85 | the result is at most `MaxProbePoints`, every slot below it has both `xySet` and `zSet`, and the slot at it (if any) does not: the longest fully-set prefix |
| `ProbeStatus.DefinedPrefix` | src/Movement/BedProbing/RandomProbePointSet.cpp:75-85 | the longest-prefix count as a function of the flags: bounded by the length, all slots below it fully set, the next one not |
| `BedProbing.RandomProbePointSet.ClearProbeHeights` | src/Movement/BedProbing/RandomProbePointSet.cpp:88-94 | every slot loses `zSet` and nothing else changes (other flags, coordinates, fit, point count); afterwards no probe point is defined |
| `ProbeStatus.NoHeightsNoPoints` | src/Movement/BedProbing/RandomProbePointSet.cpp:75-94 | when no slot has `zSet`, the defined prefix is empty, so the count after clearing the heights is 0 |
| `BedProbing.RandomProbePointSet.GoodProbePoints` | src/Movement/BedProbing/RandomProbePointSet.cpp:183-193 | true exactly when each of the first n slots has `xySet` and `zSet` and not `probeError` |
| `BedProbing.RandomProbePointSet.GoodProbePointOrdering` | src/Movement/BedProbing/RandomProbePointSet.cpp:196-215 | true exactly when (n≥2 ⇒ y1>y0), (n≥3 ⇒ x2>x1), (n≥4 ⇒ y3<y2) and (n≥4 ⇒ x0<x3) all hold; hence always true for n ≤ 1 |
| `BedProbing.RandomProbePointSet.SetProbedBedEquation` | src/Movement/BedProbing/RandomProbePointSet.cpp:97-151 | returns true (error) exactly when the ordering fails or n is not 3 or 4, and then changes nothing; otherwise the point count becomes n (so it stays in {0,3,4}), a 3-point fit stores the plane through the three points, and a 4-point fit stores the reciprocal spans and reproduces each corner height at its rectangle corner |
| `BedProbing.RandomProbePointSet.GetInterpolatedHeightError` | src/Movement/BedProbing/RandomProbePointSet.cpp:166-180 | answers 0 while no compensation is active; its plane and ruled-surface branches are tied to the probe heights by the contract of `SetProbedBedEquation` and the `SurfaceFit` lemmas |
| `SurfaceFit.FitPlane` | src/Movement/BedProbing/RandomProbePointSet.cpp:112-124 | the source's cross-product plane computation over reals, with divisor `c` required non-zero; it has no contract of its own: `PlaneFitPassesThroughPoints` and `PlaneFitIsUnique` state that it is the one plane through the three points |
| `SurfaceFit.PlaneFitPassesThroughPoints` | src/Movement/BedProbing/RandomProbePointSet.cpp:112-124 | when the points are not collinear seen from above, the plane from the cross-product construction has height zi at (xi, yi) for all three points |
| `SurfaceFit.PlaneFitIsUnique` | src/Movement/BedProbing/RandomProbePointSet.cpp:112-124 | any plane aX·x + aY·y + aC through the three points is the fitted one |
| `SurfaceFit.LevelPointsFitLevelPlane` | src/Movement/BedProbing/RandomProbePointSet.cpp:112-124 | three points at one height fit the level plane at that height |
| `SurfaceFit.SecondDegreeTransformZ` | src/Movement/BedProbing/RandomProbePointSet.cpp:258-263 | the source's bilinear blend over reals, with corner 0's X and Y and the two reciprocal spans as parameters; it has no contract of its own: `RuledSurfaceAtCorners`, `RuledSurfaceAtCentre` and `RuledSurfaceLowEdgeIsLinear` state its properties |
| `SurfaceFit.RuledSurfaceAtCorners` | src/Movement/BedProbing/RandomProbePointSet.cpp:246-263 | with the spans the 4-point fit stores, the ruled surface equals z0, z1, z2, z3 at (x0,y0), (x0,y1), (x3,y1), (x3,y0) |
| `SurfaceFit.RuledSurfaceAtCentre` | src/Movement/BedProbing/RandomProbePointSet.cpp:258-263 | at the centre of the rectangle the ruled surface is the mean of the four corner heights |
| `SurfaceFit.RuledSurfaceLowEdgeIsLinear` | src/Movement/BedProbing/RandomProbePointSet.cpp:258-263 | along y = y0 the surface is the straight line through corners 0 and 3 for every x, inside the rectangle or not: there is no clamping |
| `HeightStatistics.Classify` | src/Movement/BedProbing/RandomProbePointSet.cpp:225-238 | a slot is reported with its height exactly when it is good, as "not set" exactly when it lacks XY or Z, and otherwise as "probing failed" |
| `BedProbing.RandomProbePointSet.ReportProbeHeights` | src/Movement/BedProbing/RandomProbePointSet.cpp:218-244 | one classified entry per requested slot; the running sums are those of the measured heights, and the summary is their sum divided by the number of requested slots with the mean square less the squared mean, floored at 0 |
| `HeightStatistics.Summarise` | src/Movement/BedProbing/RandomProbePointSet.cpp:240-242 | the mean (sum over the number of entries) and the squared deviation floored at 0, `Undefined` with no entries; it has no contract of its own: `DeviationFloorIsInactive` (with `SquareOfSumBound`) states that the floor never applies, and `ReportProbeHeights` is proved to return it |
| `HeightStatistics.SquareOfSumBound` | src/Movement/BedProbing/RandomProbePointSet.cpp:221-239 | the square of the accumulated sum is at most the number of entries times the accumulated sum of squares |
| `HeightStatistics.DeviationFloorIsInactive` | src/Movement/BedProbing/RandomProbePointSet.cpp:240-242 | in exact arithmetic the radicand is never negative, so the floor at 0 only guards against rounding |

## Left out

- The object-model table (src/Movement/BedProbing/RandomProbePointSet.cpp:12-31) is reflection plumbing for an external framework.
- The deprecation warning sent on each successful fit goes through a platform messaging call that is not part of this model.
- The reply text is left out: the error messages of `SetProbedBedEquation` (including the point index `min(n, 4) - 1`), the "Bed equation fits points" list, and the formatting of `ReportProbeHeights`. The model keeps the error result and the computed values.
- `DebugPrint` writes to the debug output only. Its statistics are those of `ReportProbeHeights` without the classification and without the floor at 0.
- Single-precision rounding, infinities and NaN are not modelled: all coordinates and coefficients are `real`.
- `BedProbing.RandomProbePointSet.SetProbedBedEquation`: when three points are collinear seen from above, the firmware divides by zero and stores non-finite plane coefficients. The model sets the point count to 3 and reports success, as the firmware does, but leaves the three coefficients unconstrained.
- `BedProbing.RandomProbePointSet.ReportProbeHeights`: returns the squared deviation, because `sqrtf` has no counterpart over `real`. With 0 points the firmware divides by zero, and the model returns `Undefined` instead of NaN.
- `SurfaceFit.FitPlane`: requires the divisor `c` (`NormalZ`) to be non-zero. When the points are collinear seen from above, the firmware still divides by `c` and gets non-finite coefficients, which have no counterpart over `real`.
- `HeightStatistics.Summarise`: returns the squared deviation, because `sqrtf` has no counterpart over `real`. With no entries the firmware divides by zero, and the model returns `Undefined` instead of NaN.
- `MaxProbePoints` comes from a configuration header that is not part of this model. It is fixed at 32 here; the class relies only on its being at least 4, and the scenarios use only slots 0 to 3.
- The firmware does not check slot indices. The model requires `index < MaxProbePoints` for the setters, and `numPoints <= MaxProbePoints` for the scans that read the first `numPoints` slots.
- The store is single-threaded: interleaving a height query with an update is outside the model.
