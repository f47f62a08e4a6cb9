/** The slice of matter-js the sandbox touches: rigid bodies whose position and
    velocity are read and overwritten (`Body.setPosition`, `Body.setVelocity`),
    and the bounds rectangle handed to `Render.lookAt`. Collision resolution and
    integration belong to the engine and are not part of this model. */
module Matter {
  import opened Vectors

  /** The outline a body is created with (`Bodies.circle`, `Bodies.rectangle`). */
  datatype Shape = Circle(radius: real) | Rectangle(width: real, height: real)

  /** A viewport rectangle `{min, max}` for `Render.lookAt`. */
  datatype Bounds = Bounds(min: Vector, max: Vector)

  /** A matter-js body. Its position and velocity are overwritten in place; its
      outline and sensor flag are fixed at creation. */
  class Body {
    var position: Vector
    var velocity: Vector
    const shape: Shape
    const isSensor: bool

    /** `Bodies.circle` / `Bodies.rectangle`: a body at rest at `position`. */
    constructor (position: Vector, shape: Shape, isSensor: bool)
      ensures this.position == position && velocity == Origin
      ensures this.shape == shape && this.isSensor == isSensor
    {
      this.position := position;
      this.velocity := Origin;
      this.shape := shape;
      this.isSensor := isSensor;
    }
  }

  /** No body occurs twice in `bodies`. */
  ghost predicate Distinct(bodies: seq<Body>) {
    forall i, j :: 0 <= i < |bodies| && 0 <= j < |bodies| && i != j ==> bodies[i] != bodies[j]
  }
}
