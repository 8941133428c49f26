/** Value-level view of the broad-phase geometry: corner points, axis-aligned
    boxes as a pair of corners, and the closed-form tests the AABB class
    performs on its fields.  Java doubles are modelled as reals, so the
    arithmetic facts below hold exactly (no IEEE-754 rounding). */
module Geometry {

  datatype Point = Point(x: real, y: real)

  /** A box given by its lower-left corner `min` and upper-right corner `max`. */
  datatype Box = Box(min: Point, max: Point)

  function Add(p: Point, o: Point): Point {
    Point(p.x + o.x, p.y + o.y)
  }

  function Neg(o: Point): Point {
    Point(-o.x, -o.y)
  }

  /** The box moved by `o`: both corners shifted by the same vector. */
  function Translate(b: Box, o: Point): Box {
    Box(Add(b.min, o), Add(b.max, o))
  }

  function Width(b: Box): real { b.max.x - b.min.x }

  function Height(b: Box): real { b.max.y - b.min.y }

  /** The corners are in order on both axes (zero width or height allowed). */
  predicate Ordered(b: Box) {
    b.min.x <= b.max.x && b.min.y <= b.max.y
  }

  /** The box with the roles of min.y and max.y exchanged. */
  function FlipY(b: Box): Box {
    Box(Point(b.min.x, b.max.y), Point(b.max.x, b.min.y))
  }

  /** The degenerate box holding only the point `p`. */
  function PointBox(p: Point): Box {
    Box(p, p)
  }

  /** Closed-interval containment of a point on both axes, with min below max
      on both axes: the reference meaning of "a point lies in a box". */
  predicate InClosedBox(b: Box, p: Point) {
    b.min.x <= p.x <= b.max.x && b.min.y <= p.y <= b.max.y
  }

  /** Order on both axes with the corners apart: a box that is not a single
      point. */
  predicate OrderedNonPoint(b: Box) {
    Ordered(b) && b.min != b.max
  }

  /** The broad-phase box/box test: the closed intervals intersect on both axes. */
  predicate Overlap(a: Box, b: Box) {
    a.min.x <= b.max.x && a.max.x >= b.min.x &&
    a.min.y <= b.max.y && a.max.y >= b.min.y
  }

  /** Two boxes placed in world space by adding each body's position. */
  predicate WorldOverlap(a: Box, pa: Point, b: Box, pb: Point) {
    Overlap(Translate(a, pa), Translate(b, pb))
  }

  // ---------------------------------------------------------------------
  // Properties of the box/box test

  lemma OverlapSymmetric(a: Box, b: Box)
    ensures Overlap(a, b) <==> Overlap(b, a)
  {
  }

  /** A box overlaps itself exactly when its corners are in order. */
  lemma OverlapReflexive(a: Box)
    ensures Overlap(a, a) <==> Ordered(a)
  {
  }

  /** Moving both boxes by the same vector does not change the verdict. */
  lemma OverlapTranslationInvariant(a: Box, b: Box, o: Point)
    ensures Overlap(Translate(a, o), Translate(b, o)) <==> Overlap(a, b)
  {
  }

  /** For ordered boxes, the test says exactly that the two closed boxes
      share a point; the witness is (max(a.min.x, b.min.x), max(a.min.y, b.min.y)). */
  lemma OverlapIffCommonPoint(a: Box, b: Box)
    requires Ordered(a) && Ordered(b)
    ensures Overlap(a, b) <==> exists p :: InClosedBox(a, p) && InClosedBox(b, p)
  {
    if Overlap(a, b) {
      var x := if a.min.x <= b.min.x then b.min.x else a.min.x;
      var y := if a.min.y <= b.min.y then b.min.y else a.min.y;
      var w := Point(x, y);
      assert InClosedBox(a, w) && InClosedBox(b, w);
    }
  }

  /** A negative answer is always safe to act on: boxes that do not overlap
      share no point, whatever the order of their corners. */
  lemma NoOverlapNoCommonPoint(a: Box, b: Box, p: Point)
    requires !Overlap(a, b)
    ensures !(InClosedBox(a, p) && InClosedBox(b, p))
  {
  }

  /** The test is conservative on unordered boxes: it can report an overlap
      although one of the boxes holds no point at all. */
  lemma OverlapWithEmptyBox()
    ensures var e := Box(Point(5.0, 0.0), Point(0.0, 1.0));
            var b := Box(Point(-10.0, 0.0), Point(10.0, 1.0));
            Overlap(e, b) && forall p :: !InClosedBox(e, p)
  {
  }

  /** Only the relative position of the two bodies matters in world space. */
  lemma WorldOverlapRelative(a: Box, pa: Point, b: Box, pb: Point)
    ensures WorldOverlap(a, pa, b, pb) <==> Overlap(a, Translate(b, Add(pb, Neg(pa))))
  {
  }

  lemma WorldOverlapSymmetric(a: Box, pa: Point, b: Box, pb: Point)
    ensures WorldOverlap(a, pa, b, pb) <==> WorldOverlap(b, pb, a, pa)
  {
  }

  // ---------------------------------------------------------------------
  // Properties of translation

  /** Translation keeps width, height and order, and is undone by the
      opposite offset. */
  lemma TranslateKeepsShape(b: Box, o: Point)
    ensures Width(Translate(b, o)) == Width(b)
    ensures Height(Translate(b, o)) == Height(b)
    ensures Ordered(Translate(b, o)) <==> Ordered(b)
    ensures Translate(Translate(b, o), Neg(o)) == b
  {
  }

  // ---------------------------------------------------------------------
  // Validity

  /** The order checks accept a box whose corners coincide, such as the
      default box at the origin. */
  lemma PointBoxPassesOrderChecks(p: Point)
    ensures Ordered(PointBox(p))
    ensures var d := PointBox(Point(0.0, 0.0));
            d.max.x - d.min.x >= 0.0 && d.max.y - d.min.y >= 0.0
  {
  }

  /** The check that also rejects single points: it refuses exactly the
      point boxes among the ordered boxes. */
  lemma OrderedNonPointRejectsPoints(b: Box)
    ensures OrderedNonPoint(b) <==> Ordered(b) && forall p :: b != PointBox(p)
  {
    if !OrderedNonPoint(b) && Ordered(b) {
      assert b == PointBox(b.min);
    }
  }

  // ---------------------------------------------------------------------
  // Point containment

  /** A box holds some point exactly when its corners are in order. */
  lemma NonEmptyIffOrdered(b: Box)
    ensures (exists p :: InClosedBox(b, p)) <==> Ordered(b)
  {
    if Ordered(b) {
      assert InClosedBox(b, b.min);
    }
  }

  /** Containment agrees with the box/box test applied to the point's
      degenerate box, so both queries use one vertical convention. */
  lemma ContainmentMatchesOverlap(b: Box, p: Point)
    ensures InClosedBox(b, p) <==> Overlap(b, PointBox(p))
  {
  }

  /** The point test of the AABB class checks containment in the y-flipped
      box.  It accepts some point exactly when min.x <= max.x and
      max.y <= min.y, so it rejects every point of a box whose max.y lies
      above its min.y, which is every valid box that is not flat. */
  lemma FlippedTestNonEmptyIff(b: Box)
    ensures (exists p :: InClosedBox(FlipY(b), p)) <==> b.min.x <= b.max.x && b.max.y <= b.min.y
  {
    NonEmptyIffOrdered(FlipY(b));
  }

  /** On an ordered box the flipped test accepts only points on the flat
      line min.y == max.y. */
  lemma FlippedTestOnOrderedBox(b: Box, p: Point)
    requires Ordered(b) && InClosedBox(FlipY(b), p)
    ensures b.min.y == b.max.y == p.y
  {
  }

  /** Concrete input: the unit box and its centre.  The box/box test and the
      closed containment accept the centre; the flipped test rejects it. */
  lemma FlippedTestRejectsCentre()
    ensures var unit := Box(Point(0.0, 0.0), Point(1.0, 1.0));
            var centre := Point(0.5, 0.5);
            Overlap(unit, PointBox(centre)) && InClosedBox(unit, centre) &&
            !InClosedBox(FlipY(unit), centre)
  {
  }
}
