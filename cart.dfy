/**
 * Cart assembly (`createCart` / `createCartWheel`, identical in
 * world.service.ts and world.component.ts): the fixed 8-vertex hull, two
 * circular wheels hung below chassis vertices 1 and 2, and the two point
 * constraints binding them to the chassis.
 */
module CartAssembly {
  import opened Base
  import opened Physics

  /** A wheel hangs `radius * 1.5` below the chassis vertex it is attached to. */
  const WheelDrop: real := 1.5

  /** What `Bodies.fromVertices(x, y, [vertices])` made of the hull: its centre and its world-space vertices. */
  datatype PlacedHull = PlacedHull(position: Vector, vertices: seq<Vector>)

  /** `Bodies.fromVertices`, foreign code that recentres the polygon; supplied by the caller. */
  type FromVertices = (real, real, seq<Vector>) -> PlacedHull

  /** Width of the hull's top edge: thickness, slope, base, slope, thickness. */
  function HullWidth(baseWidth: real, sideOffset: real, thickness: real): real
  {
    thickness + sideOffset + baseWidth + sideOffset + thickness
  }

  /**
   * The chassis outline in local coordinates. It is a trough mirrored about
   * the vertical line through its middle: vertex `i` faces vertex `5 - i` on
   * the rim and the base, and vertices 6 and 7 face each other on the floor.
   */
  function HullVertices(baseWidth: real, height: real, sideOffset: real, thickness: real): (hull: seq<Vector>)
    ensures |hull| == 8 && hull[0] == Vector(0.0, 0.0)
    ensures forall i :: 0 <= i < 6 ==>
      hull[i].x + hull[5 - i].x == HullWidth(baseWidth, sideOffset, thickness) && hull[i].y == hull[5 - i].y
    ensures hull[6].x + hull[7].x == HullWidth(baseWidth, sideOffset, thickness)
    ensures hull[6].y == hull[7].y == height + thickness
    ensures forall i :: 0 <= i < 8 ==> hull[i].y == 0.0 || hull[i].y == height || hull[i].y == height + thickness
    ensures 0.0 <= thickness && 0.0 <= sideOffset && 0.0 <= baseWidth ==>
      forall i :: 0 <= i < 8 ==> 0.0 <= hull[i].x <= HullWidth(baseWidth, sideOffset, thickness)
  {
    [ Vector(0.0, 0.0),
      Vector(thickness, 0.0),
      Vector(thickness + sideOffset, height),
      Vector(thickness + sideOffset + baseWidth, height),
      Vector(thickness + sideOffset + baseWidth + sideOffset, 0.0),
      Vector(thickness + sideOffset + baseWidth + sideOffset + thickness, 0.0),
      Vector(thickness + sideOffset + baseWidth + thickness, height + thickness),
      Vector(sideOffset, height + thickness) ]
  }

  datatype CartWheel = CartWheel(wheel: Body, constraint: Constraint)

  /**
   * `createCartWheel(x, y, radius, body)`: a circle of friction 1 centred
   * `radius * 1.5` below `(x, y)`, and a constraint from the chassis (index 0)
   * to the wheel (index `index`) whose anchor, taken relative to the chassis
   * centre, lands exactly on the wheel's centre.
   */
  function CreateCartWheel(x: real, y: real, radius: real, chassis: Body, index: nat): (cw: CartWheel)
    ensures cw.wheel.shape == Circle(radius) && cw.wheel.torque == 0.0
    ensures cw.wheel.position == Vector(x, y + radius * WheelDrop)
    ensures cw.constraint.bodyA == 0 && cw.constraint.bodyB == index
    ensures cw.constraint.pointA == Vector(x - chassis.position.x, y - chassis.position.y + radius * WheelDrop)
    ensures Add(chassis.position, cw.constraint.pointA) == cw.wheel.position
  {
    var wheel := NewBody(Circle(radius), Vector(x, y + (radius * 1.5)), [Friction(1.0)]);
    var bodyCenter := chassis.position;
    var constraint := Constraint(0, Vector(x - bodyCenter.x, (y - bodyCenter.y) + radius * 1.5), index);
    CartWheel(wheel, constraint)
  }

  /** The hull `createCart` passes to `fromVertices` can be placed: vertices 1 and 2 exist. */
  predicate CanPlace(fromVertices: FromVertices, x: real, y: real, baseWidth: real, height: real, sideOffset: real, thickness: real)
  {
    |fromVertices(x, y, HullVertices(baseWidth, height, sideOffset, thickness)).vertices| >= 3
  }

  /**
   * A cart as `createCart` assembles it: chassis at index 0, wheels at 1 and
   * 2, constraint `k` binding the chassis to wheel `k + 1` at an anchor that
   * sits on that wheel's centre.
   */
  predicate Assembled(cart: Composite)
  {
    && |cart.bodies| == 3 && |cart.constraints| == 2
    && cart.bodies[0].shape.Polygon?
    && forall k :: 0 <= k < 2 ==>
         var c := cart.constraints[k];
         c.bodyA == 0 && c.bodyB == k + 1 && cart.bodies[k + 1].shape.Circle?
         && Add(cart.bodies[0].position, c.pointA) == cart.bodies[k + 1].position
  }

  function CreateCart(x: real, y: real, baseWidth: real, height: real, sideOffset: real, thickness: real,
                      wheelRadius: real, fromVertices: FromVertices): (cart: Composite)
    requires CanPlace(fromVertices, x, y, baseWidth, height, sideOffset, thickness)
    ensures Assembled(cart)
    ensures var placed := fromVertices(x, y, HullVertices(baseWidth, height, sideOffset, thickness));
      && cart.bodies[0].shape == Polygon(placed.vertices)
      && cart.bodies[0].position == placed.position
      && forall k :: 1 <= k <= 2 ==>
           var v := placed.vertices[k];
           && cart.bodies[k].shape == Circle(wheelRadius)
           && cart.bodies[k].position == Vector(v.x, v.y + wheelRadius * WheelDrop)
           && cart.constraints[k - 1].pointA
              == Vector(v.x - placed.position.x, v.y - placed.position.y + wheelRadius * WheelDrop)
  {
    var bodyVertices := HullVertices(baseWidth, height, sideOffset, thickness);
    var placed := fromVertices(x, y, bodyVertices);
    var body := NewBody(Polygon(placed.vertices), placed.position, []);
    var wheel1 := CreateCartWheel(placed.vertices[1].x, placed.vertices[1].y, wheelRadius, body, 1);
    var wheel2 := CreateCartWheel(placed.vertices[2].x, placed.vertices[2].y, wheelRadius, body, 2);
    Composite([body, wheel1.wheel, wheel2.wheel], [wheel1.constraint, wheel2.constraint])
  }
}
