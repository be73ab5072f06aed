/**
 * The two end points of a gradient and the center point between them.
 * Moving an end point moves the center to the (Java integer) midpoint of
 * the two end points, without moving anything else.
 */
module Gradient {
  import opened JavaInt

  /**
   * Converts a component-space location to image space; it stands for the
   * image component's zoom and pan, which belong to the view.
   */
  type ToImage = (Int32, Int32) -> (real, real)

  /** The point halfway between the two gradient end points. */
  class GradientCenterPoint {
    var x: Int32
    var y: Int32
    var imX: real
    var imY: real
    const toImage: ToImage

    constructor (x0: Int32, y0: Int32, toImage: ToImage)
      ensures x == x0 && y == y0 && this.toImage == toImage
      ensures (imX, imY) == toImage(x0, y0)
    {
      x, y := x0, y0;
      this.toImage := toImage;
      imX, imY := toImage(x0, y0).0, toImage(x0, y0).1;
    }

    /** Moves the center alone; the end points it sits between stay where they are. */
    method SetLocationWithoutMovingChildren(nx: Int32, ny: Int32)
      modifies this`x, this`y
      ensures x == nx && y == ny
    {
      x, y := nx, ny;
    }

    /** Recomputes the image-space coordinates from the component-space location. */
    method CalcImCoords()
      modifies this`imX, this`imY
      ensures (imX, imY) == toImage(x, y)
    {
      imX, imY := toImage(x, y).0, toImage(x, y).1;
    }
  }

  /** Either the start point or the end point of a gradient. */
  class GradientDefiningPoint {
    var x: Int32
    var y: Int32
    var imX: real
    var imY: real
    const toImage: ToImage
    var other: GradientDefiningPoint?
    var center: GradientCenterPoint?

    /** The center sits at the Java midpoint of this point and the other one. */
    ghost predicate CenterIsMidpoint()
      reads this, other, center
      requires other != null && center != null
    {
      center.x == Midpoint(x, other.x) && center.y == Midpoint(y, other.y)
    }

    constructor (x0: Int32, y0: Int32, toImage: ToImage)
      ensures x == x0 && y == y0 && this.toImage == toImage
      ensures (imX, imY) == toImage(x0, y0)
      ensures other == null && center == null
    {
      x, y := x0, y0;
      this.toImage := toImage;
      imX, imY := toImage(x0, y0).0, toImage(x0, y0).1;
      other, center := null, null;
    }

    method SetOther(p: GradientDefiningPoint)
      modifies this`other
      ensures other == p
    {
      other := p;
    }

    method SetCenter(c: GradientCenterPoint)
      modifies this`center
      ensures center == c
    {
      center := c;
    }

    /**
     * Puts this point at (nx, ny), then moves the center to the midpoint of
     * this point and the other one. The other point is only read. When the
     * other point is this point itself, the center lands on (nx, ny).
     */
    method SetLocation(nx: Int32, ny: Int32)
      requires other != null && center != null
      modifies this`x, this`y, center`x, center`y
      ensures x == nx && y == ny
      ensures other == old(other) && center == old(center)
      ensures other != this ==> other.x == old(other.x) && other.y == old(other.y)
      ensures center.x == Midpoint(nx, other.x) && center.y == Midpoint(ny, other.y)
      ensures CenterIsMidpoint()
      ensures other.other == this && other.center == center ==> other.CenterIsMidpoint()
    {
      x, y := nx, ny;
      var cx := Midpoint(nx, other.x);
      var cy := Midpoint(ny, other.y);
      center.SetLocationWithoutMovingChildren(cx, cy);
      MidpointSymmetric(nx, other.x);
      MidpointSymmetric(ny, other.y);
    }

    /**
     * A constrained move: the mouse location is constrained relative to the
     * other point (by `constrain`, which receives the other point's location
     * first and the mouse location second), and the result goes through
     * SetLocation, so the center is again the midpoint.
     */
    method SetConstrainedLocation(mouseX: Int32, mouseY: Int32,
                                  constrain: (Int32, Int32, Int32, Int32) -> (Int32, Int32))
      requires other != null && center != null
      modifies this`x, this`y, center`x, center`y
      ensures (x, y) == constrain(old(other.x), old(other.y), mouseX, mouseY)
      ensures other == old(other) && center == old(center)
      ensures other != this ==> other.x == old(other.x) && other.y == old(other.y)
      ensures CenterIsMidpoint()
    {
      var p := constrain(other.x, other.y, mouseX, mouseY);
      SetLocation(p.0, p.1);
    }

    /** After a release both this point and the center recompute their image coordinates. */
    method AfterMouseReleasedActions()
      requires center != null
      modifies this`imX, this`imY, center`imX, center`imY
      ensures (imX, imY) == toImage(x, y)
      ensures (center.imX, center.imY) == center.toImage(center.x, center.y)
    {
      imX, imY := toImage(x, y).0, toImage(x, y).1;
      center.CalcImCoords();
    }
  }
}
