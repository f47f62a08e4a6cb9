/** The standalone arena page of src/pages/index.tsx: a module-level player
    body and 150 boxes in a 5000 x 5000 world, and the animation-frame body
    that moves the player, keeps it in the world, wraps the boxes and points the
    renderer at a viewport centred on the player but kept inside the world.
    Engine, runner and React wiring are not part of this model. */
module Arena {
  import opened Vectors
  import opened Matter
  import opened Optional
  import opened Keyboard
  import opened Players
  import opened Games

  const WorldSize: Vector := Vector(5000.0, 5000.0)

  /** The top-left of the view: the player position less half the canvas,
      clamped to `[0, worldSize - canvasSize]`. */
  function TopLeft(playerPosition: Vector, canvasSize: Vector, worldSize: Vector): (r: Vector)
    ensures canvasSize.x <= worldSize.x && canvasSize.y <= worldSize.y ==>
      Within(r, Origin, Sub(worldSize, canvasSize))
    ensures Within(playerPosition, Div(canvasSize, 2.0), Sub(worldSize, Div(canvasSize, 2.0))) ==>
      r == Sub(playerPosition, Div(canvasSize, 2.0))
  {
    ClampVector(Sub(playerPosition, Div(canvasSize, 2.0)), Origin, Sub(worldSize, canvasSize))
  }

  /** The bounds handed to `Render.lookAt`. */
  function ViewBounds(playerPosition: Vector, canvasSize: Vector, worldSize: Vector): (b: Bounds)
    ensures b.min == TopLeft(playerPosition, canvasSize, worldSize)
    ensures Sub(b.max, b.min) == canvasSize
  {
    var topLeft := TopLeft(playerPosition, canvasSize, worldSize);
    Bounds(topLeft, Add(topLeft, canvasSize))
  }

  /** A canvas no larger than the world is never shown anything outside it. */
  lemma ViewInsideWorld(playerPosition: Vector, canvasSize: Vector, worldSize: Vector)
    requires 0.0 <= canvasSize.x <= worldSize.x && 0.0 <= canvasSize.y <= worldSize.y
    ensures var b := ViewBounds(playerPosition, canvasSize, worldSize);
      Within(b.min, Origin, worldSize) && Within(b.max, Origin, worldSize)
  {
  }

  /** The module-level simulation state of the page. */
  class Arena {
    const playerBody: Body
    const boxes: seq<Body>
    /** The bounds most recently passed to `Render.lookAt`, if any. */
    var viewport: Option<Bounds>

    ghost predicate Valid()
      reads this
    {
      Distinct(boxes) && |boxes| == BoxCount && playerBody !in boxes
    }

    /** Module initialisation: the player body at its random spawn point, the
        150 boxes at theirs, then a random velocity for each box. */
    constructor (playerDraw: (real, real), boxDraws: seq<(real, real)>,
                 directions: seq<Vector>, speedDraws: seq<real>)
      requires |boxDraws| == BoxCount && |directions| == BoxCount && |speedDraws| == BoxCount
      ensures Valid() && viewport == None
      ensures fresh(playerBody) && forall i :: 0 <= i < |boxes| ==> fresh(boxes[i])
      ensures playerBody.position == Vector(playerDraw.0 * WorldSize.x, playerDraw.1 * WorldSize.y)
      ensures 0.0 <= playerDraw.0 < 1.0 && 0.0 <= playerDraw.1 < 1.0 ==>
        InHalfOpenWorld(playerBody.position, WorldSize)
      ensures playerBody.shape == Circle(PlayerRadius)
      ensures forall i :: 0 <= i < |boxes| ==>
        && boxes[i].position == BoxSpawnPosition(boxDraws[i].0, boxDraws[i].1, WorldSize)
        && boxes[i].velocity == Mult(directions[i], BoxSpeed(speedDraws[i]))
        && boxes[i].shape == Rectangle(BoxSize, BoxSize)
    {
      ScaleBelow(playerDraw.0, WorldSize.x);
      ScaleBelow(playerDraw.1, WorldSize.y);
      var body := new Body(Vector(playerDraw.0 * WorldSize.x, playerDraw.1 * WorldSize.y), Circle(PlayerRadius), false);
      var bs := CreateBoxes(WorldSize, boxDraws);
      playerBody := body;
      boxes := bs;
      viewport := None;
      new;
      RandomizeVelocities(boxes, directions, speedDraws);
    }

    /** The animation-frame callback for frame time `delta`. `canvasSize` is the
        canvas's size, or `None` when the canvas ref is not yet assigned, in which
        case the frame throws after the movement and the box wrap, before the
        renderer is pointed anywhere; `completed` says whether it got through. */
    method Frame(delta: real, keyboard: PressedKeys, canvasSize: Option<Vector>) returns (completed: bool)
      requires Valid()
      modifies this, playerBody, set b | b in boxes
      ensures Valid()
      ensures playerBody.velocity == LerpVectorClamped(old(playerBody.velocity),
        TargetVelocity(keyboard.IsDown(["KeyA"]), keyboard.IsDown(["KeyD"]),
                       keyboard.IsDown(["KeyW"]), keyboard.IsDown(["KeyS"])),
        delta * PlayerMovementSmoothing)
      ensures playerBody.position == ClampVector(old(playerBody.position), Origin, WorldSize)
      ensures Within(playerBody.position, Origin, WorldSize)
      ensures forall i :: 0 <= i < |boxes| ==>
        && boxes[i].position == WrapPosition(old(boxes[i].position), WorldSize)
        && boxes[i].velocity == old(boxes[i].velocity)
      ensures completed == canvasSize.Some?
      ensures completed ==> viewport == Some(ViewBounds(playerBody.position, canvasSize.value, WorldSize))
      ensures !completed ==> viewport == old(viewport)
    {
      var left, right := keyboard.IsDown(["KeyA"]), keyboard.IsDown(["KeyD"]);
      var up, down := keyboard.IsDown(["KeyW"]), keyboard.IsDown(["KeyS"]);
      Simulate(delta, left, right, up, down);
      if canvasSize.None? {
        return false;
      }
      // point the renderer at the canvas-sized view around the player
      viewport := Some(ViewBounds(playerBody.position, canvasSize.value, WorldSize));
      completed := true;
    }

    /** The movement and box-wrap blocks of the frame. */
    method Simulate(delta: real, left: bool, right: bool, up: bool, down: bool)
      requires Valid()
      modifies playerBody, set b | b in boxes
      ensures playerBody.velocity == LerpVectorClamped(old(playerBody.velocity),
        TargetVelocity(left, right, up, down), delta * PlayerMovementSmoothing)
      ensures playerBody.position == ClampVector(old(playerBody.position), Origin, WorldSize)
      ensures Within(playerBody.position, Origin, WorldSize)
      ensures forall i :: 0 <= i < |boxes| ==>
        && boxes[i].position == WrapPosition(old(boxes[i].position), WorldSize)
        && boxes[i].velocity == old(boxes[i].velocity)
    {
      // player movement
      var target := TargetFromKeys(left, right, up, down);
      Steer(playerBody, target, delta, WorldSize);

      // boxes loop to the other side of the world
      WrapBoxes(boxes, WorldSize);
    }
  }
}
