/** The player of src/modules/game/player.ts: a circular avatar body and a
    sensor cursor body, key-driven movement with smoothed velocity, and the
    cursor that orbits the avatar in the pointer's direction. */
module Players {
  import opened Vectors
  import opened Matter

  const PlayerSpeed: real := 5.0
  const PlayerMovementSmoothing: real := 10.0
  const PlayerCursorOffset: real := 70.0
  const PlayerRadius: real := 30.0
  const CursorRadius: real := 10.0

  /** The velocity the held movement keys ask for: A left, D right, W up, S down.
      Opposite keys held together cancel on their axis. */
  function TargetVelocity(left: bool, right: bool, up: bool, down: bool): (r: Vector)
    ensures r.x == -PlayerSpeed <==> left && !right
    ensures r.x == PlayerSpeed <==> right && !left
    ensures r.x == 0.0 <==> left == right
    ensures r.y == -PlayerSpeed <==> up && !down
    ensures r.y == PlayerSpeed <==> down && !up
    ensures r.y == 0.0 <==> up == down
  {
    Vector((if right then PlayerSpeed else 0.0) - (if left then PlayerSpeed else 0.0),
           (if down then PlayerSpeed else 0.0) - (if up then PlayerSpeed else 0.0))
  }

  /** Every component of a target velocity is one of -5, 0 and 5. */
  lemma TargetVelocityComponents(left: bool, right: bool, up: bool, down: bool)
    ensures var t := TargetVelocity(left, right, up, down);
      (t.x == -PlayerSpeed || t.x == 0.0 || t.x == PlayerSpeed) &&
      (t.y == -PlayerSpeed || t.y == 0.0 || t.y == PlayerSpeed)
  {
  }

  /** The movement prologue of `move`: start from the origin and step each axis
      by the player speed for every held key. */
  method TargetFromKeys(left: bool, right: bool, up: bool, down: bool) returns (velocity: Vector)
    ensures velocity == TargetVelocity(left, right, up, down)
  {
    velocity := Origin;
    if left { velocity := velocity.(x := velocity.x - PlayerSpeed); }
    if right { velocity := velocity.(x := velocity.x + PlayerSpeed); }
    if up { velocity := velocity.(y := velocity.y - PlayerSpeed); }
    if down { velocity := velocity.(y := velocity.y + PlayerSpeed); }
  }

  /** Both components lie within the player speed. */
  predicate WithinSpeed(v: Vector) {
    -PlayerSpeed <= v.x <= PlayerSpeed && -PlayerSpeed <= v.y <= PlayerSpeed
  }

  /** The smoothed velocity step: the new velocity snaps to the target once the
      frame is at least a tenth of a second long, stays put for a frame time of
      zero or less, and a velocity within the player speed stays within it. */
  lemma SmoothedVelocity(v: Vector, target: Vector, delta: real)
    ensures delta >= 0.1 ==> LerpVectorClamped(v, target, delta * PlayerMovementSmoothing) == target
    ensures delta <= 0.0 ==> LerpVectorClamped(v, target, delta * PlayerMovementSmoothing) == v
    ensures WithinSpeed(v) && WithinSpeed(target) ==>
      WithinSpeed(LerpVectorClamped(v, target, delta * PlayerMovementSmoothing))
  {
  }

  /** The two body updates of `move`: smooth the velocity toward `target`, then
      clamp the position into `[0, worldSize]`. */
  method Steer(body: Body, target: Vector, delta: real, worldSize: Vector)
    modifies body
    ensures body.velocity == LerpVectorClamped(old(body.velocity), target, delta * PlayerMovementSmoothing)
    ensures body.position == ClampVector(old(body.position), Origin, worldSize)
    ensures 0.0 <= worldSize.x && 0.0 <= worldSize.y ==> Within(body.position, Origin, worldSize)
  {
    body.velocity := LerpVectorClamped(body.velocity, target, delta * PlayerMovementSmoothing);
    body.position := ClampVector(body.position, Origin, worldSize);
  }

  /** The pointer position relative to the avatar, as `updateCursorPosition`
      computes it before taking its angle: the screen pointer is translated into
      the world by centring the canvas on the avatar, and the avatar's position
      is then taken away again. The result does not depend on where the avatar is. */
  function AimVector(mouse: Vector, canvasSize: Vector, playerPosition: Vector): (r: Vector)
    ensures r == Sub(mouse, Div(canvasSize, 2.0))
  {
    var worldMouse := Add(Sub(mouse, Div(canvasSize, 2.0)), playerPosition);
    Sub(worldMouse, playerPosition)
  }

  /** Moving the avatar does not change the aim. */
  lemma AimIgnoresPlayerPosition(mouse: Vector, canvasSize: Vector, p: Vector, q: Vector)
    ensures AimVector(mouse, canvasSize, p) == AimVector(mouse, canvasSize, q)
  {
  }

  /** `direction` is `(cos a, sin a)` for `a = atan2(aim.y, aim.x)`: a unit vector
      pointing along `aim`, and `(1, 0)` when `aim` is zero. */
  ghost predicate UnitToward(direction: Vector, aim: Vector) {
    && direction.x * direction.x + direction.y * direction.y == 1.0
    && (aim == Origin ==> direction == Vector(1.0, 0.0))
    && (aim != Origin ==> direction.x * aim.y == direction.y * aim.x && direction.x * aim.x + direction.y * aim.y > 0.0)
  }

  class Player {
    /** The world bounds, from the project's constants module. */
    const worldSize: Vector
    const playerBody: Body
    const playerCursorBody: Body

    ghost predicate Valid()
      reads this
    {
      playerBody != playerCursorBody
    }

    /** Spawns the avatar at `(rx * width, ry * height)` for the two random draws,
        with the sensor cursor body on top of it. */
    constructor (worldSize: Vector, rx: real, ry: real)
      ensures Valid() && this.worldSize == worldSize
      ensures fresh(playerBody) && fresh(playerCursorBody)
      ensures playerBody.position == Vector(rx * worldSize.x, ry * worldSize.y)
      ensures playerBody.velocity == Origin
      ensures playerBody.shape == Circle(PlayerRadius) && !playerBody.isSensor
      ensures playerCursorBody.position == playerBody.position
      ensures playerCursorBody.shape == Circle(CursorRadius) && playerCursorBody.isSensor
    {
      this.worldSize := worldSize;
      var body := new Body(Vector(rx * worldSize.x, ry * worldSize.y), Circle(PlayerRadius), false);
      playerBody := body;
      playerCursorBody := new Body(body.position, Circle(CursorRadius), true);
    }

    /** The `position` getter: the avatar body's position, read live. */
    function Position(): (r: Vector)
      reads this, playerBody
      ensures r == playerBody.position
    {
      playerBody.position
    }

    /** `move(delta)`, with the held keys given as the set of pressed codes. */
    method Move(delta: real, pressed: set<string>)
      requires Valid()
      modifies playerBody
      ensures playerBody.velocity == LerpVectorClamped(old(playerBody.velocity),
        TargetVelocity("KeyA" in pressed, "KeyD" in pressed, "KeyW" in pressed, "KeyS" in pressed),
        delta * PlayerMovementSmoothing)
      ensures playerBody.position == ClampVector(old(playerBody.position), Origin, worldSize)
      ensures 0.0 <= worldSize.x && 0.0 <= worldSize.y ==> Within(Position(), Origin, worldSize)
      ensures unchanged(playerCursorBody)
    {
      var velocity := TargetFromKeys("KeyA" in pressed, "KeyD" in pressed, "KeyW" in pressed, "KeyS" in pressed);
      Steer(playerBody, velocity, delta, worldSize);
    }

    /** `updateCursorPosition(canvasSize)` for the screen pointer `mouse`.
        `direction` is the cosine and sine of the aim angle, which are supplied
        rather than computed. The cursor is put `PlayerCursorOffset` away from
        the avatar along that direction. */
    method UpdateCursorPosition(canvasSize: Vector, mouse: Vector, direction: Vector)
      requires Valid()
      requires UnitToward(direction, Sub(mouse, Div(canvasSize, 2.0)))
      modifies playerCursorBody
      ensures playerCursorBody.position == Add(playerBody.position, Mult(direction, PlayerCursorOffset))
      ensures var offset := Sub(playerCursorBody.position, playerBody.position);
        offset.x * offset.x + offset.y * offset.y == PlayerCursorOffset * PlayerCursorOffset
      ensures playerCursorBody.velocity == old(playerCursorBody.velocity)
      ensures unchanged(playerBody)
    {
      var aim := AimVector(mouse, canvasSize, playerBody.position);
      assert UnitToward(direction, aim);
      var position := playerBody.position;
      playerCursorBody.position := Vector(position.x + direction.x * PlayerCursorOffset,
                                          position.y + direction.y * PlayerCursorOffset);
      var offset := Sub(playerCursorBody.position, position);
      assert offset == Mult(direction, PlayerCursorOffset);
      calc {
        offset.x * offset.x + offset.y * offset.y;
        (direction.x * direction.x + direction.y * direction.y) * (PlayerCursorOffset * PlayerCursorOffset);
        PlayerCursorOffset * PlayerCursorOffset;
      }
    }
  }
}
