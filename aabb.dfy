/** The axis-aligned bounding box of the collision package and the two
    fields of a body that its world-space overlap test reads. */
module Collision {
  import Geometry
  import opened Vectors

  class AABB {
    /** Lower-left corner. */
    var min: Vectors2D
    /** Upper-right corner. */
    var max: Vectors2D

    /** Every box owns two distinct corner objects; all constructors
        establish this and no method re-points a corner. */
    ghost predicate Valid()
      reads this
    {
      min != max
    }

    /** The four coordinates as a value. */
    function Value(): Geometry.Box
      reads this, min, max
    {
      Geometry.Box(min.Point(), max.Point())
    }

    /** Stores fresh copies of the arguments, so later changes to `min` or
        `max` do not reach the box (the two may even be one object). */
    constructor (min: Vectors2D, max: Vectors2D)
      ensures Valid() && fresh(this.min) && fresh(this.max)
      ensures Value() == Geometry.Box(min.Point(), max.Point())
    {
      var lo := min.Copy();
      var hi := max.Copy();
      this.min, this.max := lo, hi;
    }

    /** Both corners at the origin. */
    constructor Default()
      ensures Valid() && fresh(min) && fresh(max)
      ensures Value() == Geometry.Box(Geometry.Point(0.0, 0.0), Geometry.Point(0.0, 0.0))
      ensures Geometry.Ordered(Value())
    {
      min := new Vectors2D();
      max := new Vectors2D();
    }

    /** Copies the coordinates of `aabb` into this box's own corner objects.
        The copy goes wrong only if a corner is shared crosswise with
        `aabb` (its max being this min, or its min being this max), which
        cannot happen between boxes built by the constructors. */
    method Set(aabb: AABB)
      requires Valid()
      requires aabb.max != min && aabb.min != max
      modifies min, max
      ensures min == old(min) && max == old(max)
      ensures Value() == old(aabb.Value())
      ensures aabb.Value() == old(aabb.Value())
    {
      var v := aabb.min;
      min.x := v.x;
      min.y := v.y;
      var v1 := aabb.max;
      max.x := v1.x;
      max.y := v1.y;
    }

    /** Returns the corner object itself, not a copy: writing through it
        changes the box. */
    function GetMin(): (v: Vectors2D)
      reads this
      ensures v == min
    {
      min
    }

    /** Returns the corner object itself, not a copy. */
    function GetMax(): (v: Vectors2D)
      reads this
      ensures v == max
    {
      max
    }

    /** A box is valid when its corners are in order on both axes (a flat
        box or a single point passes) and both corners pass the vector
        check `finite`. */
    function IsValid(finite: (real, real) -> bool): (r: bool)
      reads this, min, max
      ensures !Geometry.Ordered(Value()) ==> !r
      ensures Geometry.Ordered(Value()) ==> (r <==> finite(min.x, min.y) && finite(max.x, max.y))
    {
      if max.x - min.x < 0.0 then false
      else if max.y - min.y < 0.0 then false
      else min.IsValid(finite) && max.IsValid(finite)
    }

    /** The point test as the engine writes it: x within [min.x, max.x],
        but y within [max.y, min.y].  It is containment in the y-flipped
        box, so it holds for no point once max.y > min.y. */
    function AABBOverLapPoint(point: Vectors2D): (r: bool)
      reads this, min, max, point
      ensures r <==> Geometry.InClosedBox(Geometry.FlipY(Value()), point.Point())
      ensures max.y > min.y ==> !r
    {
      var x := point.x;
      var y := point.y;
      x <= GetMax().x && x >= GetMin().x && y >= GetMax().y && y <= GetMin().y
    }

    /** Moves the box by `offset`, adding it to each corner in place.  When
        `offset` is this box's own min corner, min doubles first and max
        then receives the doubled value. */
    method AddOffset(offset: Vectors2D)
      requires Valid()
      modifies min, max
      ensures min == old(min) && max == old(max)
      ensures offset != min ==> Value() == Geometry.Translate(old(Value()), old(offset.Point()))
      ensures offset == min ==>
        var m := Geometry.Add(old(min.Point()), old(min.Point()));
        Value() == Geometry.Box(m, Geometry.Add(old(max.Point()), m))
      ensures offset != min && offset != max ==> offset.Point() == old(offset.Point())
    {
      min.Add(offset);
      max.Add(offset);
    }

    /** A new, independent box with the same coordinates. */
    method Copy() returns (c: AABB)
      ensures fresh(c) && fresh(c.min) && fresh(c.max) && c.Valid()
      ensures c.Value() == Value()
    {
      c := new AABB(min, max);
    }

    /** World-space overlap of two bodies: each body's box is copied, the
        copy moved by the body's position, and the copies compared.  The
        method modifies nothing that existed before the call, so neither
        body's box nor position changes. */
    static method AABBOverLapBodies(A: Body, B: Body) returns (r: bool)
      ensures r <==> Geometry.WorldOverlap(A.aabb.Value(), A.position.Point(),
                                           B.aabb.Value(), B.position.Point())
    {
      var aCopy := A.aabb.Copy();
      var bCopy := B.aabb.Copy();
      aCopy.AddOffset(A.position);
      bCopy.AddOffset(B.position);
      r := AABBOverLap(aCopy, bCopy);
    }

    /** The closed-interval box/box test; symmetric in its arguments. */
    static function AABBOverLap(a: AABB, b: AABB): (r: bool)
      reads a, a.min, a.max, b, b.min, b.max
      ensures r <==> Geometry.Overlap(a.Value(), b.Value())
      ensures r <==> Geometry.Overlap(b.Value(), a.Value())
    {
      a.min.x <= b.max.x &&
      a.max.x >= b.min.x &&
      a.min.y <= b.max.y &&
      a.max.y >= b.min.y
    }
  }

  /** Stand-in for the engine's rigid body: only the two fields read by the
      world-space overlap test. */
  class Body {
    var aabb: AABB
    var position: Vectors2D

    constructor (aabb: AABB, position: Vectors2D)
      ensures this.aabb == aabb && this.position == position
    {
      this.aabb, this.position := aabb, position;
    }
  }
}
