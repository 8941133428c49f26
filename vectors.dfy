/** The engine's mutable 2D vector, reduced to what the bounding-box code
    uses: two public coordinates, a copy and an in-place add. */
module Vectors {
  import Geometry

  class Vectors2D {
    var x: real
    var y: real

    /** The zero vector. */
    constructor ()
      ensures x == 0.0 && y == 0.0
    {
      x, y := 0.0, 0.0;
    }

    constructor At(x: real, y: real)
      ensures this.x == x && this.y == y
    {
      this.x, this.y := x, y;
    }

    /** The coordinates as a value. */
    function Point(): Geometry.Point
      reads this
    {
      Geometry.Point(x, y)
    }

    /** The engine's own validity check on a vector is not part of this
        model; it enters as the parameter `finite`. */
    function IsValid(finite: (real, real) -> bool): (r: bool)
      reads this
      ensures r <==> finite(Point().x, Point().y)
    {
      finite(x, y)
    }

    /** A new vector with the same coordinates; this one is untouched. */
    method Copy() returns (v: Vectors2D)
      ensures fresh(v) && v.Point() == Point()
    {
      v := new Vectors2D.At(x, y);
    }

    /** Adds `v` to this vector in place.  When `v` is this vector itself,
        the coordinates double. */
    method Add(v: Vectors2D)
      modifies this
      ensures Point() == Geometry.Add(old(Point()), old(v.Point()))
    {
      x := x + v.x;
      y := y + v.y;
    }
  }
}
