# Broad-phase bounding boxes and the separating-axis record

This project models two small classes of the collision package of a 2D
rigid-body physics engine, and proves properties of the model:

- `AABB`, the axis-aligned bounding box used by the broad phase. It is a
  mutable pair of corner vectors `min` and `max`. It has a copying constructor,
  a default constructor, in-place `set` and `addOffset`, the getters `getMin`
  and `getMax`, a validity query, `copy`, a point test, and two static overlap
  tests, box/box and body/body.
- `AxisData`, the record that one separating-axis probe fills in. It holds a
  `penetration` that starts at the sentinel `-Double.MAX_VALUE`, and a
  `referenceFaceIndex` that starts at 0. Each field has its own setter and
  getter.

Layout:

- `geometry.dfy`, module `Geometry`: the value view. A `Point` and a `Box` (a
  pair of corners), the box/box test `Overlap`, the reference containment
  `InClosedBox`, `Translate`, `FlipY`, and the lemmas about them.
- `vectors.dfy`, module `Vectors`: class `Vectors2D` with public `x`, `y`, a
  zero constructor, `Copy` and an in-place `Add`.
- `aabb.dfy`, module `Collision`: class `AABB` and a stand-in class `Body`.
  `Body` holds only the fields `aabb` and `position`, which the body/body test
  reads.
- `axis_data.dfy`, module `SeparatingAxis`: class `AxisData`, the `Int32`
  type of Java's `int`, and the sentinel constant `NoAxisTested`.

Design points:

- Each `AABB` method that updates the box in place changes only the two corner
  objects (`modifies min, max`). Its contract states the new coordinates
  through `Value()`, and says the box still points at the same corner objects.
- `getMin` and `getMax` return the corner objects themselves. The aliasing this
  creates stays visible in the model:
  - `AddOffset` states what happens when the offset is the box's own `min`
    corner (`box.addOffset(box.getMin())`). Then `min` doubles first, and `max`
    receives the doubled value.
  - `Set` requires that no corner is shared crosswise between the two boxes.
    Boxes built by the constructors never share corners, because both
    constructors allocate their own.
- The body/body test has no `modifies` clause. Its copies are fresh objects, so
  the verifier checks that neither body's box nor position changes.
- The engine's vector validity check (`Vectors2D.isValid`) is not part of this
  model. `IsValid` takes it as the parameter `finite`, so everything proved
  holds for any definition of that check.
- The sentinel is exactly `-Double.MAX_VALUE`, i.e. `-(2^1024 - 2^971)`. It is
  not negative infinity.

## Model

| member | source | states |
|---|---|---|
| `Collision.AABB.constructor` | src/main/java/library/collision/AABB.java:31-34 | the box's coordinates equal the arguments'; both corners are fresh objects, so later changes to the argument vectors cannot reach the box, even when both arguments are one object |
| `Collision.AABB.Default` | src/main/java/library/collision/AABB.java:40-43 | both corners are fresh and at the origin, and the box passes both order checks of `isValid` (zero width and height are accepted) |
| `Collision.AABB.Set` | src/main/java/library/collision/AABB.java:51-58 | the four coordinates become those of `aabb`; `aabb` is unchanged; the box keeps its own corner objects |
| `Collision.AABB.GetMin` | src/main/java/library/collision/AABB.java:65-67 | returns the `min` corner object itself, not a copy |
| `Collision.AABB.GetMax` | src/main/java/library/collision/AABB.java:74-76 | returns the `max` corner object itself, not a copy |
| `Collision.AABB.IsValid` | src/main/java/library/collision/AABB.java:86-94 | false whenever the corners are out of order on either axis; otherwise true exactly when both corners pass the vector check; zero width or height is accepted |
| `Collision.AABB.AABBOverLapPoint` | src/main/java/library/collision/AABB.java:104-108 | true exactly when the point lies in the closed box with min.y and max.y exchanged; false for every point once max.y > min.y |
| `Collision.AABB.AddOffset` | src/main/java/library/collision/AABB.java:117-120 | translates the box by the offset when the offset is not its own min corner; states the doubled result when it is; an unrelated offset vector is not modified |
| `Collision.AABB.Copy` | src/main/java/library/collision/AABB.java:133-135 | a fresh box with fresh corners and the same coordinates; the original is not modified |
| `Collision.AABB.AABBOverLapBodies` | src/main/java/library/collision/AABB.java:147-155 | equals the box/box test on the two boxes, each moved by its body's position; modifies no existing object, so the bodies' boxes and positions are unchanged |
| `Collision.AABB.AABBOverLap` | src/main/java/library/collision/AABB.java:167-172 | the closed-interval overlap of the two boxes on both axes, the same whichever box comes first |
| `Vectors.Vectors2D.constructor` | src/main/java/library/collision/AABB.java:41-42 | the zero vector |
| `Vectors.Vectors2D.At` | src/main/java/library/collision/AABB.java:32-33 | a vector with the given coordinates, which the copies made by the constructor are built from |
| `Vectors.Vectors2D.IsValid` | src/main/java/library/collision/AABB.java:93 | the vector check, as the predicate `finite` applied to the vector's two coordinates |
| `Vectors.Vectors2D.Copy` | src/main/java/library/collision/AABB.java:32-33 | a fresh vector with the same coordinates |
| `Vectors.Vectors2D.Add` | src/main/java/library/collision/AABB.java:118-119 | adds the argument to this vector in place (it doubles when the argument is the vector itself) |
| `Geometry.OverlapSymmetric` | src/main/java/library/collision/AABB.java:167-172 | the box/box test is symmetric |
| `Geometry.OverlapReflexive` | src/main/java/library/collision/AABB.java:167-172 | a box overlaps itself exactly when its corners are in order |
| `Geometry.OverlapTranslationInvariant` | src/main/java/library/collision/AABB.java:167-172 | moving both boxes by one offset does not change the test |
| `Geometry.OverlapIffCommonPoint` | src/main/java/library/collision/AABB.java:167-172 | for boxes with ordered corners, the test holds exactly when the two closed boxes share a point |
| `Geometry.NoOverlapNoCommonPoint` | src/main/java/library/collision/AABB.java:167-172 | a negative answer guarantees that no point lies in both boxes, for any boxes |
| `Geometry.OverlapWithEmptyBox` | src/main/java/library/collision/AABB.java:167-172 | the test is only conservative on boxes with unordered corners: it may accept a box that holds no point |
| `Geometry.WorldOverlapRelative` | src/main/java/library/collision/AABB.java:147-155 | world-space overlap depends only on the relative position of the two bodies |
| `Geometry.WorldOverlapSymmetric` | src/main/java/library/collision/AABB.java:147-155 | world-space overlap of two bodies is symmetric |
| `Geometry.TranslateKeepsShape` | src/main/java/library/collision/AABB.java:117-120 | translation keeps width, height and corner order, and the opposite offset undoes it |
| `Geometry.PointBoxPassesOrderChecks` | src/main/java/library/collision/AABB.java:86-92 | a box whose corners coincide, the default box at the origin among them, passes both order checks |
| `Geometry.OrderedNonPointRejectsPoints` | src/main/java/library/collision/AABB.java:81-92 | the check that also rejects single points accepts exactly the ordered boxes that are not a point box |
| `Geometry.NonEmptyIffOrdered` | src/main/java/library/collision/AABB.java:86-92 | a box holds some point exactly when its corners pass the two order checks of `isValid` |
| `Geometry.ContainmentMatchesOverlap` | src/main/java/library/collision/AABB.java:167-172 | closed containment of a point equals the box/box test against that point's degenerate box |
| `Geometry.FlippedTestNonEmptyIff` | src/main/java/library/collision/AABB.java:104-108 | the point test accepts some point exactly when min.x <= max.x and max.y <= min.y |
| `Geometry.FlippedTestOnOrderedBox` | src/main/java/library/collision/AABB.java:104-108 | on a box with ordered corners, the point test accepts only points on a flat box with min.y == max.y == y |
| `Geometry.FlippedTestRejectsCentre` | src/main/java/library/collision/AABB.java:104-108 | the unit box contains its centre and overlaps the centre's point box, yet the point test rejects the centre |
| `SeparatingAxis.AxisData.constructor` | src/main/java/library/collision/AxisData.java:13-16 | penetration starts at the sentinel `-Double.MAX_VALUE` and the reference face index at 0 |
| `SeparatingAxis.AxisData.SetPenetration` | src/main/java/library/collision/AxisData.java:23-25 | penetration becomes the value; the reference face index is unchanged |
| `SeparatingAxis.AxisData.SetReferenceFaceIndex` | src/main/java/library/collision/AxisData.java:32-34 | the reference face index becomes the value; penetration is unchanged |
| `SeparatingAxis.AxisData.GetPenetration` | src/main/java/library/collision/AxisData.java:41-43 | returns the stored penetration and modifies nothing |
| `SeparatingAxis.AxisData.GetReferenceFaceIndex` | src/main/java/library/collision/AxisData.java:50-52 | returns the stored reference face index and modifies nothing |

## Left out

- `AABB.toString` (AABB.java:122-125): string formatting that depends on `Vectors2D.toString`, which is not part of this model.
- `Vectors2D`, the rest of the vector class: only the coordinates, the two constructors, `copy` and `add` are modelled. They follow how `AABB.java` and the vector's callers use them. The vector's own source is not part of this model.
- `Vectors.Vectors2D.Add`: modelled as returning nothing. Whether the engine's `add` also returns its receiver is not visible here, and `AABB` does not use a return value.
- `Vectors2D.isValid`: its definition is not part of this model. It is the parameter `finite` of `IsValid`.
- `Body`: only `aabb` and `position` are modelled. The rest of the rigid body is not part of this model.
- IEEE-754 doubles are modelled as reals. Translation invariance, the unchanged width and height after `addOffset`, and the round trip of `Translate` hold exactly for reals. They need not hold bit for bit for doubles. NaN and infinities are not represented. Their effect on `isValid` is meant to come through `finite`.
- `Collision.AABB.Set`: requires that no corner object is shared crosswise with the argument, and that the box's own two corners are distinct. Java's constructors guarantee both, but the model states them as preconditions rather than as an ownership invariant over all boxes.

## Findings

| source | as written | input that shows it | evidently intended | confidence | as-written member | corrected member |
|---|---|---|---|---|---|---|
| src/main/java/library/collision/AABB.java:107 | the point test checks `y >= max.y && y <= min.y`, with the y roles of min and max exchanged relative to `isValid` and the box/box test | the box with min (0,0) and max (1,1), and the point (0.5,0.5): the test returns false, although the box/box test overlaps the box with the point's degenerate box | y within [min.y, max.y], the same convention as `AABBOverLap(AABB, AABB)`; the engine may instead mean a screen-space y axis, so this is an open question | medium; not executed | `Collision.AABB.AABBOverLapPoint`, exhibited by `Geometry.FlippedTestRejectsCentre` and `Geometry.FlippedTestNonEmptyIff` | `Geometry.InClosedBox`, proved consistent with the box/box test by `Geometry.ContainmentMatchesOverlap` |
| src/main/java/library/collision/AABB.java:87-92 | the order checks reject only `max - min < 0`, although the method's documentation (AABB.java:81) says it makes sure the box is not a point | the default box, min = max = (0,0): both order checks pass, so `isValid` depends only on the vector check | a check that also rejects a box whose corners coincide; the code may instead mean to accept flat boxes, so the documentation may be what is wrong | low; not executed | `Collision.AABB.IsValid`, exhibited by `Geometry.PointBoxPassesOrderChecks` and `Collision.AABB.Default` | `Geometry.OrderedNonPoint`, proved to refuse exactly the point boxes by `Geometry.OrderedNonPointRejectsPoints` |

The class keeps the as-written point test and validity check, because that
is the behaviour of the code. The corrected `Geometry.InClosedBox` and
`Geometry.OrderedNonPoint` are the references that the lemmas compare them
with.
