/**
 * The matter-js objects the game builds, as plain records. The physics engine
 * itself (collision, integration, `Bodies.fromVertices` recentring) is foreign:
 * a body here only remembers what the game passed when creating it, plus the
 * position, velocity and torque that the game reads or writes.
 */
module Physics {
  import opened Base

  /** The options object passed to `Bodies.*`; an absent option keeps the library default. */
  datatype BodyOption =
    | IsStatic(isStatic: bool)
    | Friction(friction: real)
    | FrictionStatic(frictionStatic: real)
    | Slop(slop: real)

  datatype Shape =
    | Polygon(vertices: seq<Vector>)
    | Circle(radius: real)

  datatype Body = Body(shape: Shape, position: Vector, velocity: Vector, torque: real, options: seq<BodyOption>)

  /** `Constraint.create({ bodyA, pointA, bodyB })`, the bodies named by their index in the composite. */
  datatype Constraint = Constraint(bodyA: nat, pointA: Vector, bodyB: nat)

  /** `Composite.create({ bodies, constraints })`. */
  datatype Composite = Composite(bodies: seq<Body>, constraints: seq<Constraint>)

  const Origin: Vector := Vector(0.0, 0.0)

  /** A new dynamic or static body at rest. */
  function NewBody(shape: Shape, position: Vector, options: seq<BodyOption>): Body
  {
    Body(shape, position, Origin, 0.0, options)
  }
}
